/**
 Grading the findings of an output against sources that can be read again: which findings
 stand, what is missing, and whether another pass could supply it.
 */
module Grading {
  import opened Wrappers
  import opened Chains
  import opened Lines
  import opened Observations
  import opened Findings
  import opened ClaimChecks
  import opened Evidence

  // ------------------------------------------------------------ the shape of a grade

  datatype Gap =
    | NoSourcesObserved | SourcesNotDocumented | UncitedFindings | UncheckableFindings
    | MalformedFindings | UnsoundCitations | ContradictedFindings | UnverifiedFindings
    | ClaimTextMismatch | PlanTargetsUnread | NoOnTopicFinding | NoAnsweringFinding
    | ClaimsNotChecked

  /** What an evidence check can find wrong, as opposed to what a plan or a question can. */
  predicate IsEvidenceGap(g: Gap) {
    g !in {PlanTargetsUnread, NoOnTopicFinding, NoAnsweringFinding}
  }

  predicate AreEvidenceGaps(gaps: seq<Gap>) {
    forall i | 0 <= i < |gaps| :: IsEvidenceGap(gaps[i])
  }

  /** What a claim check settled, kept under its finding's id. */
  datatype Settlement = Settlement(result: ClaimResult, typed: Option<TypedClaim>)

  /** One finding's full record. */
  datatype Record = Record(finding: Finding, statuses: Statuses, settled: Option<Settlement>)
  {
    function Verdict(): Findings.Verdict {
      if settled.None? then Insufficient else ApplyVerdict(statuses, settled.value.result)
    }
  }

  datatype Grade = Grade(
    gaps: seq<Gap>, unverified: seq<string>, coverage: Option<real>, actionable: bool,
    records: seq<Record>, blockedBy: set<Status>)

  function Ungraded(gaps: seq<Gap>, actionable: bool): Grade {
    Grade(gaps, [], None, actionable, [], {})
  }

  /** What a route's findings owe. */
  datatype Contract = Contract(evidenceHeading: string, findingHeadings: seq<string>, requiresClaimCheck: bool)

  /** Every read of a source in one grading, which may each come back different. */
  datatype Reads = Reads(citing: (nat, nat) -> Reading, settling: (nat, nat) -> Reading)

  /** What a run holds to grade against. */
  datatype Sources = Sources(obs: seq<Observation>, extra: set<SourceType>, tokenizer: Tokenizer, readings: Reads)

  // --------------------------------------------------------------- checking

  /** A finding and its citations; `own` is what its own claim came to, when it was checked. */
  datatype Checked = Checked(finding: Finding, statuses: Statuses, own: Option<Settlement>)

  function CheckOne(e: Entry, i: nat, s: Sources, requiresClaimCheck: bool): Checked {
    var statuses := CheckFinding(e.finding, s.obs, s.extra, (j: nat) => s.readings.citing(i, j));
    Checked(
      e.finding, statuses,
      if requiresClaimCheck && AreSound(statuses) then
        Some(Settlement(
          CheckClaim(e.finding, e.typed, e.condition, s.obs, s.extra, s.tokenizer,
                     (j: nat) => s.readings.settling(i, j)),
          e.typed))
      else None)
  }

  function CheckAll(entries: seq<Entry>, s: Sources, requiresClaimCheck: bool): (r: seq<Checked>)
    ensures |r| == |entries|
  {
    seq(|entries|, i requires 0 <= i < |entries| => CheckOne(entries[i], i, s, requiresClaimCheck))
  }

  /** Verdicts are kept under the finding's id, so a later one takes an earlier one's place. */
  function LookUp(checked: seq<Checked>, id: FindingId): Option<Settlement> {
    if checked == [] then None
    else
      var last := checked[|checked| - 1];
      if last.finding.Id() == id && last.own.Some? then last.own
      else LookUp(checked[..|checked| - 1], id)
  }

  function RecordOf(c: Checked, checked: seq<Checked>): Record {
    Record(c.finding, c.statuses, LookUp(checked, c.finding.Id()))
  }

  function Records(checked: seq<Checked>): (r: seq<Record>)
    ensures |r| == |checked|
  {
    seq(|checked|, i requires 0 <= i < |checked| => RecordOf(checked[i], checked))
  }

  predicate IsUnsound(r: Record) { !AreSound(r.statuses) }

  predicate Came(r: Record, result: ClaimResult) {
    r.settled.Some? && r.settled.value.result == result
  }

  predicate IsRefuted(r: Record) { Came(r, ClaimContradicted) }

  predicate IsMismatched(r: Record) { Came(r, TextMismatch) }

  predicate IsUnchecked(r: Record) {
    AreSound(r.statuses) && r.settled.Some?
    && !IsDecisive(r.settled.value.result) && r.settled.value.result != TextMismatch
  }

  function ClaimsOf(records: seq<Record>): seq<string> {
    seq(|records|, i requires 0 <= i < |records| => records[i].finding.claim)
  }

  /** Failures a differently worded citation could repair. */
  predicate Requotable(s: Status) {
    s == UnknownSource || s == DigestMismatch || s == QuoteMismatch || s == QuoteOutsideExcerpt
  }

  function BlockingIn(statuses: Statuses): set<Status> {
    set i | 0 <= i < |statuses| && statuses[i] != Intact && !Requotable(statuses[i]) :: statuses[i]
  }

  function Blocking(unsound: seq<Record>): set<Status> {
    if unsound == [] then {}
    else Blocking(unsound[..|unsound| - 1]) + BlockingIn(unsound[|unsound| - 1].statuses)
  }

  /** The graded findings, sorted by what became of them. */
  datatype Piles = Piles(
    uncheckable: seq<string>, unsound: seq<Record>, refuted: seq<Record>,
    mismatched: seq<Record>, open: seq<Record>)
  {
    function Gaps(): (gaps: seq<Gap>)
      ensures AreEvidenceGaps(gaps)
    {
      (if uncheckable != [] then [UncheckableFindings] else [])
      + (if unsound != [] then [UnsoundCitations] else [])
      + (if refuted != [] then [ContradictedFindings] else [])
      + (if mismatched != [] then [ClaimTextMismatch] else [])
      + (if open != [] then [UnverifiedFindings] else [])
    }

    function Unverified(): seq<string> {
      uncheckable + ClaimsOf(unsound) + ClaimsOf(refuted) + ClaimsOf(mismatched) + ClaimsOf(open)
    }

    function Supported(considered: nat): int {
      considered - |unsound| - |uncheckable| - |refuted| - |mismatched| - |open|
    }

    /** Whether another pass could close every gap with the sources the run holds. */
    predicate IsRequotable() {
      Blocking(unsound) == {}
      && (uncheckable != [] || unsound != [] || refuted != [] || open != [] || mismatched != [])
    }
  }

  function Sorted(records: seq<Record>, uncheckable: seq<string>): Piles {
    Piles(uncheckable,
          Filter(records, IsUnsound),
          Filter(records, IsRefuted),
          Filter(records, IsMismatched),
          Filter(records, IsUnchecked))
  }

  function Summed(p: Piles, records: seq<Record>): (g: Grade)
    requires |records| + |p.uncheckable| > 0
    ensures AreEvidenceGaps(g.gaps)
  {
    var considered := |records| + |p.uncheckable|;
    var coverage := Some(p.Supported(considered) as real / considered as real);
    if p.Gaps() != [] then
      Grade(p.Gaps(), p.Unverified(), coverage, p.IsRequotable(), records, Blocking(p.unsound))
    else
      Grade([], [], coverage, false, records, {})
  }

  function Uncheckable(prose: seq<string>, entries: seq<Entry>): seq<string> {
    Filter(prose, (bullet: string) => !exists i | 0 <= i < |entries| :: entries[i].finding.claim == bullet)
  }

  /** The whole grade of an output whose run holds sources. */
  function Graded(
      contract: Contract, output: string, s: Sources, structuredRequired: bool, parsed: Parsed): (g: Grade)
    ensures AreEvidenceGaps(g.gaps)
  {
    if s.obs == [] then Ungraded([NoSourcesObserved], false)
    else if parsed == Malformed || (structuredRequired && parsed == NoBlock) then
      Ungraded([MalformedFindings], true)
    else
      var entries := parsed.Entries();
      var uncheckable := Uncheckable(Claimed(output, contract.findingHeadings), entries);
      if entries == [] && uncheckable == [] then
        if Contains(output, contract.evidenceHeading) then Ungraded([], false)
        else Ungraded([SourcesNotDocumented], true)
      else
        var records := Records(CheckAll(entries, s, contract.requiresClaimCheck));
        Summed(Sorted(records, uncheckable), records)
  }

  method Verdicts(checks: seq<Checked>) returns (verdicts: map<FindingId, Settlement>)
    ensures forall id :: id in verdicts <==> LookUp(checks, id).Some?
    ensures forall id | id in verdicts :: LookUp(checks, id) == Some(verdicts[id])
  {
    verdicts := map[];
    for k := 0 to |checks|
      invariant forall id :: id in verdicts <==> LookUp(checks[..k], id).Some?
      invariant forall id | id in verdicts :: LookUp(checks[..k], id) == Some(verdicts[id])
    {
      assert checks[..k + 1][..k] == checks[..k];
      if checks[k].own.Some? {
        verdicts := verdicts[checks[k].finding.Id() := checks[k].own.value];
      }
    }
    assert checks[..|checks|] == checks;
  }

  method GradeAgainstEvidence(
      contract: Contract, output: string, s: Sources, structuredRequired: bool, parsed: Parsed)
      returns (grade: Grade)
    ensures grade == Graded(contract, output, s, structuredRequired, parsed)
  {
    if s.obs == [] {
      return Ungraded([NoSourcesObserved], false);
    }
    if parsed == Malformed || (structuredRequired && parsed == NoBlock) {
      return Ungraded([MalformedFindings], true);
    }
    var entries := parsed.Entries();
    var prose := FindingsIn(output, contract.findingHeadings);
    var uncheckable := Uncheckable(prose, entries);
    var checks := CheckAll(entries, s, contract.requiresClaimCheck);
    var verdicts := Verdicts(checks);
    if checks == [] && uncheckable == [] {
      return if Contains(output, contract.evidenceHeading) then Ungraded([], false)
             else Ungraded([SourcesNotDocumented], true);
    }
    var records := seq(|checks|, i requires 0 <= i < |checks| =>
      Record(checks[i].finding, checks[i].statuses,
             if checks[i].finding.Id() in verdicts then Some(verdicts[checks[i].finding.Id()]) else None));
    assert records == Records(checks);
    return Summed(Sorted(records, uncheckable), records);
  }
}
