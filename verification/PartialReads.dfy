/**
 Reading a long source one excerpt at a time: which window is offered next, what the host
 reads for it, and how far repeating that gets.
 */
module PartialReads {
  import opened Wrappers
  import opened Lines
  import opened Observations
  import opened Snapshots
  import opened Observers

  // ------------------------------------------------------------ what is offered

  /** The part of a review plan that decides: which paths it names, and its topic. */
  datatype Review = Review(names: string -> bool, isChangelog: bool)

  predicate IsPartial(o: Observation) {
    o.sourceType == LocalFile && o.totalLines.Some? && o.totalLines.value != 0
    && o.lineEnd < o.totalLines.value
  }

  function NextWindow(o: Observation, review: Review): Option<LineWindow> {
    if !IsPartial(o) || !review.names(o.path) then None
    else if review.isChangelog && o.path == "CHANGELOG.md" then
      Some(LineWindow(o.path, 1, DEFAULT_MAX_LINES, Some("## v")))
    else
      var remaining := o.totalLines.value - o.lineEnd;
      var asked := if remaining < DEFAULT_MAX_LINES then remaining else DEFAULT_MAX_LINES;
      Some(LineWindow(o.path, o.lineEnd + 1, asked, None))
  }

  function Offered(obs: seq<Observation>, review: Review): seq<LineWindow> {
    if obs == [] then []
    else
      var last := NextWindow(obs[|obs| - 1], review);
      Offered(obs[..|obs| - 1], review) + if last.Some? then [last.value] else []
  }

  method NextPartialWindows(obs: seq<Observation>, review: Review) returns (windows: seq<LineWindow>)
    ensures windows == Offered(obs, review)
  {
    windows := [];
    for k := 0 to |obs|
      invariant windows == Offered(obs[..k], review)
    {
      assert obs[..k + 1][..k] == obs[..k];
      var o := obs[k];
      if o.sourceType != LocalFile {
        continue;
      }
      if o.totalLines.None? || o.totalLines.value == 0 {
        continue;
      }
      if o.lineEnd >= o.totalLines.value {
        continue;
      }
      if !review.names(o.path) {
        continue;
      }
      if review.isChangelog && o.path == "CHANGELOG.md" {
        windows := windows + [LineWindow(o.path, 1, DEFAULT_MAX_LINES, Some("## v"))];
        continue;
      }
      var remaining := o.totalLines.value - o.lineEnd;
      var asked := if remaining < DEFAULT_MAX_LINES then remaining else DEFAULT_MAX_LINES;
      windows := windows + [LineWindow(o.path, o.lineEnd + 1, asked, None)];
    }
    assert obs[..|obs|] == obs;
  }

  ghost predicate AllValid(obs: seq<Observation>) {
    forall i | 0 <= i < |obs| :: Valid(obs[i])
  }

  lemma {:induction false} OfferedFrom(obs: seq<Observation>, review: Review, k: nat)
    requires k < |Offered(obs, review)|
    ensures exists i | 0 <= i < |obs| :: NextWindow(obs[i], review) == Some(Offered(obs, review)[k])
  {
    var init := obs[..|obs| - 1];
    if k < |Offered(init, review)| {
      OfferedFrom(init, review, k);
      var i :| 0 <= i < |init| && NextWindow(init[i], review) == Some(Offered(init, review)[k]);
      assert obs[i] == init[i];
    }
  }

  lemma WindowIsOk(o: Observation, review: Review)
    requires !Blank(o.path) && o.lineEnd >= 0 && NextWindow(o, review).Some?
    ensures WindowOk(NextWindow(o, review).value) && NextWindow(o, review).value.path == o.path
    ensures o.sourceType == LocalFile
  {
  }

  lemma OneMoreWindow(windows: seq<LineWindow>, w: LineWindow)
    requires WindowsOk(windows) && WindowOk(w)
    requires forall k | 0 <= k < |windows| :: windows[k].path != w.path
    ensures WindowsOk(windows + [w])
  {
  }

  /**
   What is offered can always be asked for: every window is one `LineWindow` accepts, and no
   path is named twice, so the request that carries them is never refused.
   */
  lemma {:induction false} OfferedIsARequest(snapshotId: string, obs: seq<Observation>, review: Review)
    requires AllValid(obs) && BaseOk(snapshotId, obs)
    ensures WindowsOk(Offered(obs, review))
  {
    if obs != [] {
      var init, last := obs[..|obs| - 1], obs[|obs| - 1];
      OfferedIsARequest(snapshotId, init, review);
      var offered := Offered(init, review);
      if NextWindow(last, review).Some? {
        ValidMeans(last);
        WindowIsOk(last, review);
        forall k | 0 <= k < |offered| ensures offered[k].path != last.path {
          OfferedFrom(init, review, k);
          var i :| 0 <= i < |init| && NextWindow(init[i], review) == Some(offered[k]);
          assert init[i] == obs[i] && obs[i].sourceId != last.sourceId;
          ValidMeans(init[i]);
          WindowIsOk(init[i], review);
        }
        OneMoreWindow(offered, NextWindow(last, review).value);
      }
    }
  }

  // -------------------------------------------------------------- what is read

  /** A host's answer to one window: those lines, or the head of the source when it cannot. */
  function ReadWindow(snapshotId: string, w: LineWindow, content: string): Result<Observation, CollectError> {
    var asked := Collect(snapshotId, w.path, content, w.maxLines, w.lineStart, w.anchor);
    if asked.Ok? then asked
    else Collect(snapshotId, w.path, content, DEFAULT_MAX_LINES, 1, None)
  }

  /** The next window would be the last line alone, and that line is empty. */
  predicate BlankTail(o: Observation, content: string) {
    var lines := SplitLines(content);
    lines != [] && o.lineEnd == |lines| - 1 && lines[|lines| - 1] == ""
  }

  /** One excerpt further: the same source, starting on the very next line, and not empty. */
  predicate Advances(o: Observation, next: Observation) {
    && next.sourceId == o.sourceId && next.digest == o.digest && next.totalLines == o.totalLines
    && next.lineStart == o.lineEnd + 1 && next.lineStart <= next.lineEnd
    && next.totalLines.Some?
    && next.lineEnd == if next.totalLines.value < o.lineEnd + DEFAULT_MAX_LINES then next.totalLines.value
                       else o.lineEnd + DEFAULT_MAX_LINES
  }

  lemma SnapshotIsKnown(o: Observation)
    requires Valid(o)
    ensures KnownOrUnknown(o.snapshotId)
  {
  }

  lemma WindowServedIff(snapshotId: string, path: string, content: string, w: LineWindow, read: int)
    requires !Blank(path) && KnownOrUnknown(snapshotId)
    requires var lines := SplitLines(content);
             0 <= read < |lines| && w.lineStart == read + 1
             && w.maxLines == if |lines| - read < DEFAULT_MAX_LINES then |lines| - read else DEFAULT_MAX_LINES
    ensures var lines := SplitLines(content);
            Collect(snapshotId, path, content, w.maxLines, w.lineStart, None).Ok?
            <==> !(read == |lines| - 1 && lines[|lines| - 1] == "")
  {
    CollectSucceedsIff(snapshotId, path, content, w.maxLines, w.lineStart);
  }

  /** A plain window is the lines right after those read, as many as may be. */
  predicate IsNext(o: Observation, content: string, w: LineWindow) {
    var remaining := |SplitLines(content)| - o.lineEnd;
    0 < remaining <= |SplitLines(content)|
    && w == LineWindow(
              o.path, o.lineEnd + 1, if remaining < DEFAULT_MAX_LINES then remaining else DEFAULT_MAX_LINES, None)
  }

  /** What is known of an observation of this content, without how it was collected. */
  predicate IsOf(o: Observation, content: string) {
    && !Blank(o.path) && KnownOrUnknown(o.snapshotId)
    && o.sourceId == Derived(o.snapshotId, LocalFile, o.path) && o.digest == Sha(content)
    && o.totalLines == Some(|SplitLines(content)|)
  }

  lemma NextIs(o: Observation, content: string, review: Review)
    requires CollectedFrom(o, content) && NextWindow(o, review).Some? && NextWindow(o, review).value.anchor.None?
    ensures IsOf(o, content) && IsNext(o, content, NextWindow(o, review).value)
  {
    CollectedIs(o, content);
    ValidMeans(o);
    SnapshotIsKnown(o);
  }

  lemma ServedIff(o: Observation, content: string, w: LineWindow)
    requires IsOf(o, content) && IsNext(o, content, w)
    ensures var asked := Collect(o.snapshotId, w.path, content, w.maxLines, w.lineStart, w.anchor);
            && (asked.Ok? <==> !BlankTail(o, content))
            && (asked.Ok? ==> CollectedFrom(asked.value, content) && Advances(o, asked.value))
  {
    WindowServedIff(o.snapshotId, o.path, content, w, o.lineEnd);
    var asked := Collect(o.snapshotId, w.path, content, w.maxLines, w.lineStart, w.anchor);
    if asked.Ok? { ServedAdvances(o, content, w, asked.value); }
  }

  lemma ServedAdvances(o: Observation, content: string, w: LineWindow, next: Observation)
    requires Collect(o.snapshotId, o.path, content, w.maxLines, w.lineStart, None) == Ok(next)
    requires o.sourceId == Derived(o.snapshotId, LocalFile, o.path) && o.digest == Sha(content)
    requires o.totalLines == Some(|SplitLines(content)|) && 0 <= o.lineEnd < |SplitLines(content)|
    requires w.lineStart == o.lineEnd + 1
    requires var remaining := |SplitLines(content)| - o.lineEnd;
             w.maxLines == if remaining < DEFAULT_MAX_LINES then remaining else DEFAULT_MAX_LINES
    ensures CollectedFrom(next, content) && Advances(o, next)
  {
    CollectedIs(next, content);
    ExcerptIs(content, w.maxLines, w.lineStart);
  }

  lemma HeadIs(snapshotId: string, path: string, content: string)
    requires content != "" && Collect(snapshotId, path, content, DEFAULT_MAX_LINES, 1, None).Ok?
    ensures var o := Collect(snapshotId, path, content, DEFAULT_MAX_LINES, 1, None).value;
            CollectedFrom(o, content) && o.lineStart == 1 && o.sourceId == Derived(snapshotId, LocalFile, path)
  {
    ExcerptIs(content, DEFAULT_MAX_LINES, 1);
  }

  /**
   Over an unchanged source the window offered is read and moves on, except for exactly one
   case: a last line that is empty and left on its own is refused as an observation, and the
   host goes back to the head of the source instead.
   */
  lemma WindowAdvancesIff(o: Observation, content: string, review: Review)
    requires CollectedFrom(o, content) && NextWindow(o, review).Some? && NextWindow(o, review).value.anchor.None?
    ensures var next := ReadWindow(o.snapshotId, NextWindow(o, review).value, content);
            && (next.Ok? && Advances(o, next.value) <==> !BlankTail(o, content))
            && (next.Ok? ==> CollectedFrom(next.value, content) && next.value.sourceId == o.sourceId)
            && (BlankTail(o, content) && next.Ok? ==> next.value.lineStart == 1)
  {
    CollectedIs(o, content);
    NextIs(o, content, review);
    ServedIff(o, content, NextWindow(o, review).value);
    var next := ReadWindow(o.snapshotId, NextWindow(o, review).value, content);
    if BlankTail(o, content) && next.Ok? {
      HeadIs(o.snapshotId, o.path, content);
    }
  }

  /** No window is offered once the last line has been read. */
  lemma NothingAfterTheEnd(o: Observation, content: string, review: Review)
    requires CollectedFrom(o, content) && review.names(o.path)
    ensures NextWindow(o, review).None? <==> o.lineEnd == |SplitLines(content)|
  {
    CollectedIs(o, content);
  }

  // -------------------------------------------------------------------- tiling

  /** The excerpts read by repeating this over an unchanged source, while each moves on. */
  function Tiles(o: Observation, content: string, review: Review): (tiles: seq<Observation>)
    requires CollectedFrom(o, content) && review.names(o.path) && !review.isChangelog
    ensures tiles != [] && tiles[0] == o
    decreases |SplitLines(content)| - o.lineEnd
  {
    CollectedIs(o, content);
    NothingAfterTheEnd(o, content, review);
    if NextWindow(o, review).None? || BlankTail(o, content) then [o]
    else
      WindowAdvancesIff(o, content, review);
      var next := ReadWindow(o.snapshotId, NextWindow(o, review).value, content).value;
      CollectedIs(next, content);
      [o] + Tiles(next, content, review)
  }

  function Covered(tiles: seq<Observation>, lines: seq<string>): seq<string> {
    if tiles == [] then []
    else Window(lines, tiles[0].lineStart, tiles[0].lineEnd) + Covered(tiles[1..], lines)
  }

  predicate Ends(o: Observation, content: string, review: Review) {
    NextWindow(o, review).None? || BlankTail(o, content)
  }

  lemma TileStep(o: Observation, content: string, review: Review) returns (next: Observation)
    requires CollectedFrom(o, content) && review.names(o.path) && !review.isChangelog
    requires !Ends(o, content, review)
    ensures CollectedFrom(next, content) && review.names(next.path) && Advances(o, next)
    ensures o.totalLines == Some(|SplitLines(content)|)
    ensures o.lineStart <= o.lineEnd < next.lineEnd <= |SplitLines(content)|
    ensures Tiles(o, content, review) == [o] + Tiles(next, content, review)
  {
    CollectedIs(o, content);
    WindowAdvancesIff(o, content, review);
    next := ReadWindow(o.snapshotId, NextWindow(o, review).value, content).value;
    CollectedIs(next, content);
  }

  /** One excerpt inside the source. */
  predicate Inside(o: Observation, lines: seq<string>) {
    o.totalLines == Some(|lines|) && 1 <= o.lineStart <= o.lineEnd <= |lines|
  }

  /** Excerpts that lie end to end inside a source. */
  predicate IsTiling(tiles: seq<Observation>, lines: seq<string>) {
    && tiles != [] && (forall i | 0 <= i < |tiles| :: Inside(tiles[i], lines))
    && forall i | 0 < i < |tiles| :: Advances(tiles[i - 1], tiles[i])
  }

  lemma TilingCons(o: Observation, rest: seq<Observation>, lines: seq<string>)
    requires Inside(o, lines) && IsTiling(rest, lines) && Advances(o, rest[0])
    ensures var tiles := [o] + rest;
            IsTiling(tiles, lines) && tiles[|tiles| - 1] == rest[|rest| - 1]
  {
    var tiles := [o] + rest;
    assert forall i | 0 < i < |tiles| :: tiles[i] == rest[i - 1];
  }

  /** Reading went on from every excerpt but the last, so none of those left a blank line alone. */
  predicate NoneStranded(tiles: seq<Observation>, content: string) {
    forall i | 0 <= i < |tiles| - 1 :: !BlankTail(tiles[i], content)
  }

  lemma NoBlankCons(o: Observation, rest: seq<Observation>, content: string)
    requires rest != [] && !BlankTail(o, content) && NoneStranded(rest, content)
    ensures NoneStranded([o] + rest, content)
  {
    var tiles := [o] + rest;
    assert forall i | 0 < i < |tiles| :: tiles[i] == rest[i - 1];
  }

  lemma TileEnd(o: Observation, content: string, review: Review)
    requires CollectedFrom(o, content) && review.names(o.path) && !review.isChangelog && content != ""
    requires Ends(o, content, review)
    ensures Tiles(o, content, review) == [o] && IsTiling([o], SplitLines(content))
    ensures o.lineEnd == |SplitLines(content)| || BlankTail(o, content)
  {
    CollectedIs(o, content);
    NothingAfterTheEnd(o, content, review);
  }

  lemma {:induction false} TilesAre(o: Observation, content: string, review: Review)
    requires CollectedFrom(o, content) && review.names(o.path) && !review.isChangelog && content != ""
    ensures var tiles, lines := Tiles(o, content, review), SplitLines(content);
            var last := tiles[|tiles| - 1];
            && IsTiling(tiles, lines) && (last.lineEnd == |lines| || BlankTail(last, content))
            && NoneStranded(tiles, content)
    decreases |SplitLines(content)| - o.lineEnd
  {
    CollectedIs(o, content);
    if Ends(o, content, review) {
      TileEnd(o, content, review);
    } else {
      var next := TileStep(o, content, review);
      TilesAre(next, content, review);
      var rest := Tiles(next, content, review);
      TilingCons(o, rest, SplitLines(content));
      NoBlankCons(o, rest, content);
    }
  }

  lemma CoversMore(lines: seq<string>, from: nat, mid: nat, to: nat)
    requires from <= mid <= to <= |lines|
    ensures lines[from..mid] + lines[mid..to] == lines[from..to]
  {
  }

  lemma TilingTail(tiles: seq<Observation>, lines: seq<string>)
    requires IsTiling(tiles, lines) && |tiles| > 1
    ensures var rest := tiles[1..];
            IsTiling(rest, lines) && rest[0].lineStart == tiles[0].lineEnd + 1 && rest[|rest| - 1] == tiles[|tiles| - 1]
  {
    var rest := tiles[1..];
    assert Advances(tiles[0], tiles[1]);
    forall i | 0 < i < |rest| ensures Advances(rest[i - 1], rest[i]) {
      assert Advances(tiles[i], tiles[i + 1]);
    }
  }

  lemma WindowIs(lines: seq<string>, from: int, to: int)
    requires 1 <= from <= to <= |lines|
    ensures Window(lines, from, to) == lines[from - 1..to]
  {
  }

  lemma CoveredCons(o: Observation, rest: seq<Observation>, lines: seq<string>)
    ensures Covered([o] + rest, lines) == Window(lines, o.lineStart, o.lineEnd) + Covered(rest, lines)
  {
    assert ([o] + rest)[1..] == rest;
  }

  lemma {:induction false} TilingCovers(tiles: seq<Observation>, lines: seq<string>)
    requires IsTiling(tiles, lines)
    ensures var last := tiles[|tiles| - 1].lineEnd;
            tiles[0].lineEnd <= last <= |lines| && Covered(tiles, lines) == lines[tiles[0].lineStart - 1..last]
  {
    var o, rest := tiles[0], tiles[1..];
    assert Inside(o, lines) && tiles == [o] + rest;
    WindowIs(lines, o.lineStart, o.lineEnd);
    CoveredCons(o, rest, lines);
    if rest != [] {
      TilingTail(tiles, lines);
      TilingCovers(rest, lines);
      CoversMore(lines, o.lineStart - 1, o.lineEnd, tiles[|tiles| - 1].lineEnd);
    }
  }

  lemma {:induction false} TilingEnds(tiles: seq<Observation>, lines: seq<string>)
    requires IsTiling(tiles, lines)
    ensures var last := tiles[|tiles| - 1].lineEnd;
            && tiles[0].lineEnd <= last <= |lines|
            && (last == |lines| || (last - tiles[0].lineEnd) % DEFAULT_MAX_LINES == 0)
  {
    if |tiles| > 1 {
      assert Advances(tiles[0], tiles[1]);
      TilingEnds(tiles[1..], lines);
      var last := tiles[|tiles| - 1].lineEnd;
      if last < |lines| {
        assert tiles[1].lineEnd == tiles[0].lineEnd + DEFAULT_MAX_LINES;
        assert last - tiles[0].lineEnd == last - tiles[1].lineEnd + DEFAULT_MAX_LINES;
      }
    }
  }

  /** The excerpts lie end to end, and together they are the source from the first one on. */
  lemma TilesCover(o: Observation, content: string, review: Review)
    requires CollectedFrom(o, content) && review.names(o.path) && !review.isChangelog && content != ""
    ensures var tiles, lines := Tiles(o, content, review), SplitLines(content);
            var last := tiles[|tiles| - 1];
            && IsTiling(tiles, lines) && (last.lineEnd == |lines| || BlankTail(last, content))
            && Covered(tiles, lines) == lines[o.lineStart - 1..last.lineEnd]
  {
    TilesAre(o, content, review);
    TilingCovers(Tiles(o, content, review), SplitLines(content));
  }

  /** What is left ends in an empty line that some window would have to hold alone. */
  predicate TailStrandsABlank(o: Observation, lines: seq<string>) {
    0 <= o.lineEnd < |lines| && lines[|lines| - 1] == "" && (|lines| - o.lineEnd) % DEFAULT_MAX_LINES == 1
  }

  lemma {:induction false} StrandedStays(tiles: seq<Observation>, content: string)
    requires IsTiling(tiles, SplitLines(content)) && TailStrandsABlank(tiles[0], SplitLines(content))
    requires NoneStranded(tiles, content)
    ensures tiles[|tiles| - 1].lineEnd < |SplitLines(content)|
  {
    if |tiles| > 1 {
      assert Advances(tiles[0], tiles[1]) && !BlankTail(tiles[0], content);
      StrandedStays(tiles[1..], content);
    }
  }

  lemma TilingEndsIff(tiles: seq<Observation>, content: string)
    requires IsTiling(tiles, SplitLines(content))
    requires NoneStranded(tiles, content)
    requires tiles[|tiles| - 1].lineEnd == |SplitLines(content)| || BlankTail(tiles[|tiles| - 1], content)
    ensures tiles[|tiles| - 1].lineEnd == |SplitLines(content)|
            <==> !TailStrandsABlank(tiles[0], SplitLines(content))
  {
    var lines := SplitLines(content);
    TilingEnds(tiles, lines);
    if TailStrandsABlank(tiles[0], lines) { StrandedStays(tiles, content); }
  }

  /** Which sources are read to the end: all but those whose last window is one empty line. */
  lemma ReadsToTheEndIff(o: Observation, content: string, review: Review)
    requires CollectedFrom(o, content) && review.names(o.path) && !review.isChangelog && content != ""
    ensures var tiles, lines := Tiles(o, content, review), SplitLines(content);
            tiles[|tiles| - 1].lineEnd == |lines| <==> !TailStrandsABlank(o, lines)
  {
    TilesAre(o, content, review);
    TilingEndsIff(Tiles(o, content, review), content);
  }
}
