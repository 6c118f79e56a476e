/**
 How one output is graded: the criteria a route owes, the gaps that fail them, and whether
 another pass could help. There is no score to outvote a requirement.
 */
module Evaluators {
  import opened Wrappers
  import opened Chains
  import opened Lines
  import opened Observations
  import opened Observers
  import opened Findings
  import opened ClaimChecks
  import opened Evidence
  import opened Grading
  import opened GradingProofs
  import PartialReads

  datatype Route = RepoReview | OtherRoute

  datatype Criterion =
    | PlanTargetsRead | SourcesDocumented | FindingsAreCheckable | CitationsAreSound
    | ClaimsAreSettled | StatesRecommendation | StatesNextStep | StatesConfidence | Substance
    | FindingsAreOnTopic | FindingsAnswer

  datatype Section = Recommendation | NextStep | Confidence

  const MIN_SUBSTANCE: nat := 300

  const REPO_REVIEW :=
    Contract("## Observed sources", ["## Findings", "## Verified findings"], true)

  /** What a review is about; pattern matching and the answering literals are the host's words. */
  datatype ReviewPlan = ReviewPlan(
    narrowed: bool, isChangelog: bool, patterns: seq<string>, matches: (string, string) -> bool,
    declaresAnswers: bool, answers: string -> bool)
  {
    predicate Names(path: string) {
      exists i | 0 <= i < |patterns| :: matches(path, patterns[i])
    }

    function Reading(): PartialReads.Review {
      PartialReads.Review((path: string) => this.Names(path), isChangelog)
    }
  }

  /** What one evaluation is asked about. */
  datatype Question = Question(
    route: Route, requiresApproval: bool, output: string, parsed: Parsed, structuredRequired: bool,
    sources: Option<Sources>, observed: seq<string>, review: Option<ReviewPlan>,
    resolved: set<string>, iteration: nat, maxIterations: nat)
  {
    predicate Narrowed() { review.Some? && review.value.narrowed }

    predicate DeclaresAnswers() { review.Some? && review.value.declaresAnswers }

    function Declared(): set<Criterion> { CriteriaFor(route, Narrowed(), DeclaresAnswers()) }
  }

  datatype ActionKind =
    | ObserveAgain | RepairFindingsBlock | DropRefutedClaim | RestateClaim | ReciteFromSource
    | CiteSources | AnswerTheQuestion | AddSections

  datatype Evaluation = Evaluation(
    passed: bool, unmet: set<Criterion>, missing: set<Section>, requiresApproval: bool,
    retryIsPossible: bool, shouldRetry: bool, nextAction: Option<ActionKind>,
    gaps: seq<Gap>, unverified: seq<string>, grade: Grade)

  // ----------------------------------------------------------------- criteria

  function CriteriaFor(route: Route, narrowed: bool, declaresAnswers: bool): set<Criterion> {
    (if route == RepoReview
     then {PlanTargetsRead, SourcesDocumented, FindingsAreCheckable, CitationsAreSound, ClaimsAreSettled,
           StatesRecommendation, StatesNextStep, StatesConfidence}
     else {Substance, StatesRecommendation, StatesNextStep, StatesConfidence})
    + (if narrowed then {FindingsAreOnTopic} else {})
    + (if narrowed && declaresAnswers then {FindingsAnswer} else {})
  }

  function CriteriaOf(gap: Gap): set<Criterion> {
    match gap
    case NoSourcesObserved => {SourcesDocumented}
    case SourcesNotDocumented => {SourcesDocumented}
    case UncitedFindings => {FindingsAreCheckable}
    case UncheckableFindings => {FindingsAreCheckable}
    case MalformedFindings => {FindingsAreCheckable, CitationsAreSound, ClaimsAreSettled}
    case UnsoundCitations => {CitationsAreSound}
    case ContradictedFindings => {ClaimsAreSettled}
    case UnverifiedFindings => {ClaimsAreSettled}
    case ClaimTextMismatch => {ClaimsAreSettled}
    case PlanTargetsUnread => {PlanTargetsRead}
    case NoOnTopicFinding => {FindingsAreOnTopic, FindingsAnswer}
    case NoAnsweringFinding => {FindingsAnswer}
    case ClaimsNotChecked => {ClaimsAreSettled, CitationsAreSound, FindingsAreCheckable}
  }

  function MarkersOf(s: Section): seq<string> {
    match s
    case Recommendation => ["## Recommendation", "## Recommended", "## Rekommendation"]
    case NextStep => ["## Next step", "## Recommended next step", "## N\U{E4}sta steg"]
    case Confidence => ["## Confidence", "## Konfidens"]
  }

  predicate HasSection(output: string, s: Section) {
    exists i | 0 <= i < |MarkersOf(s)| :: Contains(output, MarkersOf(s)[i])
  }

  function MissingSections(output: string): set<Section> {
    set s: Section | !HasSection(output, s)
  }

  function CriterionOf(s: Section): Criterion {
    match s
    case Recommendation => StatesRecommendation
    case NextStep => StatesNextStep
    case Confidence => StatesConfidence
  }

  // ------------------------------------------------------------------ evidence

  predicate CitesASource(finding: string, sources: seq<string>) {
    exists i | 0 <= i < |sources| :: Contains(finding, sources[i])
  }

  /** Coverage is rounded to two decimals before it is compared, so a sliver short is not short. */
  predicate IsShort(total: nat, uncited: nat) {
    (total - uncited) * 1000 <= 995 * total
  }

  /** Without sources to re-read, a finding is never more than a name. */
  function CitationsOnly(contract: Contract, q: Question): (g: Grade)
    ensures AreEvidenceGaps(g.gaps)
  {
    if q.observed == [] then Ungraded([NoSourcesObserved], false)
    else if q.structuredRequired && q.parsed == NoBlock then Ungraded([MalformedFindings], true)
    else
      var findings := Claimed(q.output, contract.findingHeadings);
      if findings != [] then
        var uncited := Filter(findings, (f: string) => !CitesASource(f, q.observed));
        var coverage := Some((|findings| - |uncited|) as real / |findings| as real);
        if IsShort(|findings|, |uncited|) then Grade([UncitedFindings], uncited, coverage, true, [], {})
        else Grade([ClaimsNotChecked], findings, coverage, false, [], {})
      else if !Contains(q.output, contract.evidenceHeading) then Ungraded([SourcesNotDocumented], true)
      else Ungraded([], false)
  }

  function GradeOf(q: Question): (g: Grade)
    ensures AreEvidenceGaps(g.gaps) && (q.route == OtherRoute ==> g.gaps == [])
  {
    if q.route != RepoReview then Ungraded([], false)
    else if q.sources.Some? then
      Graded(REPO_REVIEW, q.output, q.sources.value, q.structuredRequired, q.parsed)
    else CitationsOnly(REPO_REVIEW, q)
  }

  /** The patterns nothing has answered: no source read under them, and no host came back. */
  function Unread(plan: ReviewPlan, obs: seq<Observation>, resolved: set<string>): seq<string> {
    Filter(plan.patterns, (pattern: string) =>
      pattern !in resolved && !exists i | 0 <= i < |obs| :: plan.matches(obs[i].path, pattern))
  }

  function WaitingOn(q: Question): seq<string> {
    if q.review.None? then []
    else Unread(q.review.value, if q.sources.Some? then q.sources.value.obs else [], q.resolved)
  }

  /** A verified record whose claim was checked on a source the plan named. */
  predicate IsOnTopic(plan: ReviewPlan, r: Record, obs: seq<Observation>) {
    r.Verdict() == Verified && r.settled.Some? && r.settled.value.typed.Some?
    && var p := PositionOf(obs, r.settled.value.typed.value.sourceId);
       p.Some? && obs[p.value].path != "" && plan.Names(obs[p.value].path)
  }

  predicate OnTopic(q: Question, grade: Grade) {
    q.review.None? || !q.review.value.narrowed || q.sources.None?
    || exists i | 0 <= i < |grade.records| :: IsOnTopic(q.review.value, grade.records[i], q.sources.value.obs)
  }

  predicate Answering(q: Question, grade: Grade) {
    q.review.None? || !q.review.value.narrowed || q.sources.None? || !q.review.value.declaresAnswers
    || exists i | 0 <= i < |grade.records| ::
         IsOnTopic(q.review.value, grade.records[i], q.sources.value.obs)
         && q.review.value.answers(grade.records[i].settled.value.typed.value.text)
  }

  // --------------------------------------------------------------- next action

  function NextAction(q: Question, gaps: seq<Gap>, grade: Grade, missing: set<Section>, offTopic: bool)
    : Option<ActionKind>
  {
    if WaitingOn(q) == [] && grade.gaps == [] && missing == {} && !offTopic then None
    else if WaitingOn(q) != [] then Some(ObserveAgain)
    else if ClaimsNotChecked in grade.gaps then Some(ObserveAgain)
    else if grade.blockedBy != {} then Some(ObserveAgain)
    else if MalformedFindings in grade.gaps then Some(RepairFindingsBlock)
    else if exists i | 0 <= i < |grade.records| :: Came(grade.records[i], ClaimContradicted) then Some(DropRefutedClaim)
    else if exists i | 0 <= i < |grade.records| :: Came(grade.records[i], TextMismatch) then Some(RestateClaim)
    else if exists i | 0 <= i < |grade.records| :: IsUnsound(grade.records[i]) then Some(ReciteFromSource)
    else if offTopic && q.review.Some? && q.sources.Some?
            && PartialReads.Offered(q.sources.value.obs, q.review.value.Reading()) != []
            && (forall g | g in grade.gaps :: g == SourcesNotDocumented)
    then Some(ObserveAgain)
    else if grade.gaps != [] then Some(CiteSources)
    else if offTopic && q.review.Some? then Some(AnswerTheQuestion)
    else Some(AddSections)
  }

  // ------------------------------------------------------------------ evaluate

  /** What passing takes, said without criteria or gap codes. */
  ghost predicate Deserves(q: Question) {
    var grade := GradeOf(q);
    && !q.requiresApproval
    && MissingSections(q.output) == {}
    && (q.route == OtherRoute ==> |Strip(q.output)| > MIN_SUBSTANCE)
    && grade.gaps == []
    && (q.route == RepoReview ==> WaitingOn(q) == [])
    && (q.Narrowed() && WaitingOn(q) == [] ==> OnTopic(q, grade) && Answering(q, grade))
  }

  /** Every outstanding gap: of the plan, of the evidence, of the question. */
  function Codes(declared: set<Criterion>, waiting: bool, found: seq<Gap>, onTopic: bool, answering: bool): seq<Gap> {
    (if waiting then [PlanTargetsUnread] else [])
    + found
    + (if FindingsAreOnTopic in declared && !waiting && !onTopic then [NoOnTopicFinding]
       else if FindingsAnswer in declared && !waiting && !answering then [NoAnsweringFinding]
       else [])
  }

  function GapCodes(q: Question, grade: Grade): seq<Gap> {
    Codes(q.Declared(), WaitingOn(q) != [], grade.gaps, OnTopic(q, grade), Answering(q, grade))
  }

  function Failed(gaps: seq<Gap>, declared: set<Criterion>): set<Criterion> {
    set g, c | g in gaps && c in CriteriaOf(g) && c in declared :: c
  }

  lemma FailedBy(gaps: seq<Gap>, declared: set<Criterion>, g: Gap, c: Criterion)
    requires g in gaps && c in CriteriaOf(g) && c in declared
    ensures c in Failed(gaps, declared)
  {
  }

  lemma EvidenceGapFails(gaps: seq<Gap>, route: Route, narrowed: bool, declares: bool, g: Gap)
    requires g in gaps && IsEvidenceGap(g) && route == RepoReview
    ensures Failed(gaps, CriteriaFor(route, narrowed, declares)) != {}
  {
    var c :| c in CriteriaOf(g) && c in CriteriaFor(route, narrowed, declares);
    FailedBy(gaps, CriteriaFor(route, narrowed, declares), g, c);
  }

  /** Every gap but one fails a criterion its route declares, so none can be outvoted. */
  lemma GapsFailCriteria(
      route: Route, narrowed: bool, declares: bool, waiting: bool, found: seq<Gap>, onTopic: bool, answering: bool)
    requires AreEvidenceGaps(found) && (route == OtherRoute ==> found == [])
    ensures var declared := CriteriaFor(route, narrowed, declares);
            Failed(Codes(declared, waiting, found, onTopic, answering), declared) == {}
            <==> && found == [] && (route == RepoReview ==> !waiting)
                 && (narrowed && !waiting ==> onTopic && (declares ==> answering))
  {
    var declared := CriteriaFor(route, narrowed, declares);
    var gaps := Codes(declared, waiting, found, onTopic, answering);
    if found != [] {
      assert found[0] in gaps;
      EvidenceGapFails(gaps, route, narrowed, declares, found[0]);
    } else if waiting {
      assert gaps == [PlanTargetsUnread];
      if route == RepoReview { FailedBy(gaps, declared, PlanTargetsUnread, PlanTargetsRead); }
    } else if narrowed && !onTopic {
      assert gaps == [NoOnTopicFinding];
      FailedBy(gaps, declared, NoOnTopicFinding, FindingsAreOnTopic);
    } else if narrowed && declares && !answering {
      assert gaps == [NoAnsweringFinding];
      FailedBy(gaps, declared, NoAnsweringFinding, FindingsAnswer);
    } else {
      assert gaps == [];
    }
  }

  /** The requirements of form: long enough where nothing else is checked, and every section. */
  function Shape(declared: set<Criterion>, short: bool, missing: set<Section>): set<Criterion> {
    (if Substance in declared && short then {Substance} else {}) + SectionCriteria(declared, missing)
  }

  function SectionCriteria(declared: set<Criterion>, missing: set<Section>): set<Criterion> {
    set s | s in missing && CriterionOf(s) in declared :: CriterionOf(s)
  }

  lemma ShapeIsMetIff(route: Route, narrowed: bool, declares: bool, short: bool, missing: set<Section>)
    ensures Shape(CriteriaFor(route, narrowed, declares), short, missing) == {}
            <==> missing == {} && (route == OtherRoute ==> !short)
  {
    var declared := CriteriaFor(route, narrowed, declares);
    if missing != {} {
      var s :| s in missing;
      assert CriterionOf(s) in declared;
      assert CriterionOf(s) in Shape(declared, short, missing);
    } else if route == OtherRoute && short {
      assert Substance in Shape(declared, short, missing);
    }
  }

  predicate TooShort(q: Question) {
    |Strip(q.output)| <= MIN_SUBSTANCE
  }

  /** Having nothing outstanding, and no approval to ask for, is deserving to pass. */
  lemma PassesIff(q: Question, grade: Grade)
    requires grade == GradeOf(q)
    ensures Shape(q.Declared(), TooShort(q), MissingSections(q.output)) + Failed(GapCodes(q, grade), q.Declared()) == {}
            && !q.requiresApproval
            <==> Deserves(q)
  {
    ShapeIsMetIff(q.route, q.Narrowed(), q.DeclaresAnswers(), TooShort(q), MissingSections(q.output));
    GapsFailCriteria(q.route, q.Narrowed(), q.DeclaresAnswers(), WaitingOn(q) != [], grade.gaps,
                     OnTopic(q, grade), Answering(q, grade));
    DeclaredAnswers(q, grade);
  }

  lemma DeclaredAnswers(q: Question, grade: Grade)
    ensures !q.DeclaresAnswers() ==> Answering(q, grade)
  {
  }

  method GradeEvidence(q: Question) returns (grade: Grade)
    ensures grade == GradeOf(q)
  {
    if q.route != RepoReview {
      return Ungraded([], false);
    }
    if q.sources.Some? {
      grade := GradeAgainstEvidence(REPO_REVIEW, q.output, q.sources.value, q.structuredRequired, q.parsed);
      return;
    }
    return CitationsOnly(REPO_REVIEW, q);
  }

  method FailedCriteria(gaps: seq<Gap>) returns (failed: set<Criterion>)
    ensures failed == AllOf(gaps)
  {
    failed := {};
    for k := 0 to |gaps|
      invariant failed == AllOf(gaps[..k])
    {
      assert gaps[..k + 1] == gaps[..k] + [gaps[k]];
      failed := failed + CriteriaOf(gaps[k]);
    }
    assert gaps[..|gaps|] == gaps;
  }

  /** The outstanding requirements. */
  method Unmet(q: Question, gaps: seq<Gap>) returns (unmet: set<Criterion>)
    ensures unmet == Shape(q.Declared(), TooShort(q), MissingSections(q.output)) + Failed(gaps, q.Declared())
  {
    var declared := q.Declared();
    unmet := {};
    if Substance in declared && TooShort(q) {
      unmet := unmet + {Substance};
    }
    unmet := unmet + SectionCriteria(declared, MissingSections(q.output));
    var failed := FailedCriteria(gaps);
    FailedAreDeclared(gaps, declared);
    ShapeIsDeclared(declared, TooShort(q), MissingSections(q.output));
    Bounded(unmet, failed, declared);
    unmet := (unmet + failed) * declared;
  }

  lemma Bounded(shape: set<Criterion>, failed: set<Criterion>, declared: set<Criterion>)
    requires shape <= declared
    ensures (shape + failed) * declared == shape + failed * declared
  {
  }

  lemma FailedAreDeclared(gaps: seq<Gap>, declared: set<Criterion>)
    ensures AllOf(gaps) * declared == Failed(gaps, declared)
  {
  }

  lemma ShapeIsDeclared(declared: set<Criterion>, short: bool, missing: set<Section>)
    ensures Shape(declared, short, missing) <= declared
  {
  }

  function AllOf(gaps: seq<Gap>): set<Criterion> {
    set g, c | g in gaps && c in CriteriaOf(g) :: c
  }

  /** A run passes exactly when it deserves to, and a retry is offered only within the bound. */
  method Evaluate(q: Question) returns (e: Evaluation)
    ensures e.passed <==> Deserves(q)
    ensures e.grade == GradeOf(q) && e.requiresApproval == q.requiresApproval
    ensures e.gaps == GapCodes(q, e.grade) && e.missing == MissingSections(q.output)
    ensures e.unmet == Shape(q.Declared(), TooShort(q), e.missing) + Failed(e.gaps, q.Declared())
    ensures e.shouldRetry <==> e.retryIsPossible && q.iteration < q.maxIterations
    ensures e.retryIsPossible ==> !e.passed && !q.requiresApproval
    ensures e.passed ==> e.nextAction.None? && !e.requiresApproval
  {
    var grade := GradeEvidence(q);
    var missing := MissingSections(q.output);
    var gaps := GapsOf(q, grade);
    var unmet := Unmet(q, gaps);
    PassesIff(q, grade);
    var passed := unmet == {} && !q.requiresApproval;

    var offTopic := NoOnTopicFinding in gaps || NoAnsweringFinding in gaps;
    var actionable := offTopic || if grade.gaps != [] then grade.actionable else missing != {};
    var retryIsPossible := !passed && !q.requiresApproval && actionable;
    e := Evaluation(
      passed, unmet, missing, q.requiresApproval, retryIsPossible,
      retryIsPossible && q.iteration < q.maxIterations,
      if passed then None else NextAction(q, gaps, grade, missing, offTopic),
      gaps, grade.unverified, grade);
  }

  method GapsOf(q: Question, grade: Grade) returns (gaps: seq<Gap>)
    ensures gaps == GapCodes(q, grade)
  {
    var waitingOn := WaitingOn(q);
    var declared := q.Declared();
    gaps := grade.gaps;
    if waitingOn != [] {
      gaps := [PlanTargetsUnread] + gaps;
    }
    if FindingsAreOnTopic in declared && waitingOn == [] && !OnTopic(q, grade) {
      gaps := gaps + [NoOnTopicFinding];
    } else if FindingsAnswer in declared && waitingOn == [] && !Answering(q, grade) {
      gaps := gaps + [NoAnsweringFinding];
    }
  }

  /** Every grade gap but those a partial read may be asked for beside. */
  predicate AsksForLines(q: Question, e: Evaluation) {
    e.nextAction == Some(ObserveAgain) && WaitingOn(q) == [] && ClaimsNotChecked !in e.grade.gaps
    && e.grade.blockedBy == {}
  }

  /** What the next action asks the host to resolve, and which lines it asks it to read. */
  function PatternsAsked(q: Question, e: Evaluation): seq<string> {
    if e.nextAction == Some(ObserveAgain) then WaitingOn(q)
    else if e.nextAction == Some(AnswerTheQuestion) && q.review.Some? then q.review.value.patterns
    else []
  }

  function WindowsAsked(q: Question, e: Evaluation): seq<LineWindow> {
    if AsksForLines(q, e) && q.sources.Some? && q.review.Some?
    then PartialReads.Offered(q.sources.value.obs, q.review.value.Reading())
    else []
  }

  // ------------------------------------------------------- what passing a review means

  /** Everything a passed review of local sources establishes about its findings. */
  ghost predicate Established(q: Question) {
    && q.sources.Some? && q.sources.value.obs != [] && q.parsed != Malformed
    && (forall i | 0 <= i < |q.parsed.Entries()| :: Carried(q.parsed.Entries(), i, q.sources.value))
    && (forall bullet | bullet in Claimed(q.output, REPO_REVIEW.findingHeadings) ::
          exists i | 0 <= i < |q.parsed.Entries()| :: q.parsed.Entries()[i].finding.claim == bullet)
    && WaitingOn(q) == []
  }

  lemma PassedReviewIsEstablished(q: Question)
    requires q.route == RepoReview && q.sources.Some? && Deserves(q)
    requires SourcesOk(q.sources.value) && EntriesOk(q.parsed.Entries())
    ensures Established(q)
  {
    NoGapMeansGrounded(REPO_REVIEW, q.output, q.sources.value, q.structuredRequired, q.parsed);
  }

  /** With nothing to re-read, a review passes only by claiming nothing. */
  lemma WithoutSourcesNothingIsClaimed(q: Question)
    requires q.route == RepoReview && q.sources.None? && Deserves(q)
    ensures Claimed(q.output, REPO_REVIEW.findingHeadings) == [] && q.observed != []
    ensures Contains(q.output, REPO_REVIEW.evidenceHeading)
  {
  }
}
