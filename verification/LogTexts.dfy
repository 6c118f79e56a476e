/** How the loop's values read in its log: ids, digests, gaps and criteria as text. */
module LogTexts {
  import opened Wrappers
  import opened Chains
  import opened Lines
  import opened Observations
  import opened Observers
  import opened EventLogs
  import opened Grading
  import opened Evaluators
  import opened ClaimChecks
  import Json

  function TypeText(t: SourceType): string {
    match t
    case LocalFile => "local_file"
    case GithubFile => "github_file"
    case Ci => "ci"
    case Memory => "memory"
  }

  /** Stands for the hash of what an id is derived from: text, never blank. */
  function IdText(id: SourceId): (s: string)
    ensures !Blank(s)
  {
    var s := match id
      case Derived(snapshotId, t, path) =>
        "d" + Json.Quote(snapshotId) + Json.Quote(TypeText(t)) + Json.Quote(path)
      case Named(text) => "n" + Json.Quote(text);
    assert !IsSpace(s[0]);
    s
  }

  function DigestText(d: Digest): string {
    match d
    case Sha(content) => "sha256" + Json.Quote(content)
    case Hex(text) => text
    case UnknownDigest => "unknown"
  }

  function RangeText(d: Digest, lineStart: int, lineEnd: int): string {
    DigestText(d) + "@" + IntText(lineStart) + ":" + IntText(lineEnd)
  }

  predicate RoundIsText(r: Round) {
    && (forall i | 0 <= i < |r.added| :: !Blank(r.added[i].path))
    && (forall i | 0 <= i < |r.superseded| :: !Blank(r.superseded[i].path))
  }

  function AddedItems(added: seq<Observation>): seq<SourceItem> {
    seq(|added|, i requires 0 <= i < |added| =>
      SourceItem(IdText(added[i].sourceId), Some(added[i].path), DigestText(added[i].digest)))
  }

  function SupersededItems(items: seq<Supersession>): seq<SourceItem> {
    seq(|items|, i requires 0 <= i < |items| =>
      SourceItem(IdText(items[i].sourceId), Some(items[i].path), DigestText(items[i].current)))
  }

  function ReframedItems(items: seq<Reframing>): seq<SourceItem> {
    seq(|items|, i requires 0 <= i < |items| =>
      SourceItem(IdText(items[i].sourceId), Some(items[i].path),
                 RangeText(items[i].digest, items[i].newStart, items[i].newEnd)))
  }

  function RoundRecord(r: Round): (body: Body)
    requires RoundIsText(r)
    ensures body.ObservationRecorded? && WellShaped(body)
  {
    ObservationRecorded(
      AddedItems(r.added), SupersededItems(r.superseded), ReframedItems(r.reframed),
      seq(|r.same|, i requires 0 <= i < |r.same| => IdText(r.same[i])))
  }

  // ------------------------------------------------------ a round, and its record

  /** The material a round adopted. */
  function RoundMaterial(r: Round): set<(string, string)> {
    (set i | 0 <= i < |r.added| :: (IdText(r.added[i].sourceId), DigestText(r.added[i].digest)))
    + (set i | 0 <= i < |r.superseded| ::
         (IdText(r.superseded[i].sourceId), DigestText(r.superseded[i].current)))
    + (set i | 0 <= i < |r.reframed| ::
         (IdText(r.reframed[i].sourceId),
          RangeText(r.reframed[i].digest, r.reframed[i].newStart, r.reframed[i].newEnd)))
  }

  function Marks(items: seq<SourceItem>): set<(string, string)> {
    set i | 0 <= i < |items| :: (items[i].sourceId, items[i].mark)
  }

  /** The same material, read back from what the log holds. */
  function LoggedMaterial(body: Body): set<(string, string)> {
    if body.ObservationRecorded? then Marks(body.added) + Marks(body.superseded) + Marks(body.reframed)
    else {}
  }

  lemma AddedMarks(items: seq<Observation>)
    ensures Marks(AddedItems(items))
            == set i | 0 <= i < |items| :: (IdText(items[i].sourceId), DigestText(items[i].digest))
  {
    var a := AddedItems(items);
    assert forall i | 0 <= i < |items| ::
        a[i].sourceId == IdText(items[i].sourceId) && a[i].mark == DigestText(items[i].digest);
    forall x | x in (set i | 0 <= i < |items| :: (IdText(items[i].sourceId), DigestText(items[i].digest)))
      ensures x in Marks(a)
    {
      var i :| 0 <= i < |items| && x == (IdText(items[i].sourceId), DigestText(items[i].digest));
      assert x == (a[i].sourceId, a[i].mark);
    }
  }

  /** What a resume compares is what the interrupted run recorded: nothing is lost in the log. */
  lemma MaterialReadsBack(r: Round)
    requires RoundIsText(r)
    ensures LoggedMaterial(RoundRecord(r)) == RoundMaterial(r)
  {
    AddedMarks(r.added);
    var s, f := SupersededItems(r.superseded), ReframedItems(r.reframed);
    assert Marks(s) == set i | 0 <= i < |r.superseded| ::
      (IdText(r.superseded[i].sourceId), DigestText(r.superseded[i].current)) by {
      assert forall i | 0 <= i < |s| ::
        (s[i].sourceId, s[i].mark) == (IdText(r.superseded[i].sourceId), DigestText(r.superseded[i].current));
    }
    assert Marks(f) == set i | 0 <= i < |r.reframed| ::
      (IdText(r.reframed[i].sourceId),
       RangeText(r.reframed[i].digest, r.reframed[i].newStart, r.reframed[i].newEnd)) by {
      assert forall i | 0 <= i < |f| ::
        (f[i].sourceId, f[i].mark)
        == (IdText(r.reframed[i].sourceId),
            RangeText(r.reframed[i].digest, r.reframed[i].newStart, r.reframed[i].newEnd));
    }
  }

  /** What each round of an interrupted run adopted, in order. */
  function RecordedRounds(h: History): seq<set<(string, string)>> {
    if h == [] then []
    else
      var last := h[|h| - 1].body;
      RecordedRounds(h[..|h| - 1]) + if last.ObservationRecorded? then [LoggedMaterial(last)] else []
  }

  lemma SupersededPaths(existing: seq<Observation>, incoming: seq<Observation>)
    requires forall i | 0 <= i < |incoming| :: Observations.Valid(incoming[i])
    ensures RoundIsText(RoundOf(existing, incoming))
  {
    if incoming != [] {
      SupersededPaths(existing, incoming[..|incoming| - 1]);
    }
  }

  /** After a round the run holds a valid base again, and the record of it is text. */
  lemma MergedIsABase(snapshotId: string, existing: seq<Observation>, incoming: seq<Observation>)
    requires BaseOk(snapshotId, existing) && OneSnapshot(snapshotId, incoming) && UniqueIds(incoming)
    requires forall i | 0 <= i < |existing| :: Observations.Valid(existing[i])
    requires forall i | 0 <= i < |incoming| :: Observations.Valid(incoming[i])
    ensures BaseOk(snapshotId, Merged(existing, incoming))
    ensures forall i | 0 <= i < |Merged(existing, incoming)| :: Observations.Valid(Merged(existing, incoming)[i])
    ensures RoundIsText(RoundOf(existing, incoming))
    ensures !RoundOf(existing, incoming).HasNewMaterial() <==> Merged(existing, incoming) == existing
  {
    MergeKeepsTheBase(snapshotId, existing, incoming);
    NothingNewIff(existing, incoming);
    SupersededPaths(existing, incoming);
    AddedAre(existing, incoming);
  }

  // ------------------------------------------------------------- gaps and criteria

  function GapText(g: Gap): (s: string)
    ensures !Blank(s)
  {
    var s := match g
      case NoSourcesObserved => "no_sources_observed"
      case SourcesNotDocumented => "sources_not_documented"
      case UncitedFindings => "uncited_findings"
      case UncheckableFindings => "uncheckable_findings"
      case MalformedFindings => "malformed_findings"
      case UnsoundCitations => "unsound_citations"
      case ContradictedFindings => "contradicted_findings"
      case UnverifiedFindings => "unverified_findings"
      case ClaimTextMismatch => "claim_text_mismatch"
      case PlanTargetsUnread => "plan_targets_unread"
      case NoOnTopicFinding => "no_on_topic_finding"
      case NoAnsweringFinding => "no_answering_finding"
      case ClaimsNotChecked => "claims_not_checked";
    assert !IsSpace(s[0]);
    s
  }

  function CriterionText(c: Criterion): (s: string)
    ensures !Blank(s)
  {
    var s := match c
      case CitationsAreSound => "citations_hold"
      case ClaimsAreSettled => "claims_are_settled"
      case StatesConfidence => "confidence"
      case FindingsAnswer => "findings_answer_the_question"
      case FindingsAreCheckable => "findings_are_checkable"
      case FindingsAreOnTopic => "findings_are_on_topic"
      case StatesNextStep => "next_step"
      case PlanTargetsRead => "plan_targets_read"
      case StatesRecommendation => "recommendation"
      case SourcesDocumented => "sources_documented"
      case Substance => "substance";
    assert !IsSpace(s[0]);
    s
  }

  /** Every criterion, as `sorted` orders them. */
  const IN_ORDER := [
    CitationsAreSound, ClaimsAreSettled, StatesConfidence, FindingsAnswer, FindingsAreCheckable,
    FindingsAreOnTopic, StatesNextStep, PlanTargetsRead, StatesRecommendation, SourcesDocumented, Substance]

  function GapTexts(gaps: seq<Gap>): (r: seq<string>)
    ensures TextList(r)
  {
    seq(|gaps|, i requires 0 <= i < |gaps| => GapText(gaps[i]))
  }

  function UnmetTexts(unmet: set<Criterion>): (r: seq<string>)
    ensures TextList(r)
  {
    var kept := Filter(IN_ORDER, (c: Criterion) => c in unmet);
    seq(|kept|, i requires 0 <= i < |kept| => CriterionText(kept[i]))
  }

  function DecisionBody(e: Evaluation): (body: Body)
    ensures body.DecisionRecorded? && WellShaped(body)
  {
    DecisionRecorded(e.passed, GapTexts(e.gaps), UnmetTexts(e.unmet))
  }
}
