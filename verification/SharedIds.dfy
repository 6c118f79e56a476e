/**
 Findings that share an id share a verdict. What that does to the count and to the gate, that
 nothing else does it, and reviews it happens to.
 */
module SharedIds {
  import opened Wrappers
  import opened Chains
  import opened Lines
  import opened Observations
  import opened Snapshots
  import opened Observers
  import opened Findings
  import opened ClaimChecks
  import opened Evidence
  import opened Grading
  import opened GradingProofs
  import opened ReviewProducers
  import opened ProducedReviews

  predicate IdsDiffer(findings: seq<Finding>) {
    forall i, j | 0 <= i < j < |findings| :: findings[i].Id() != findings[j].Id()
  }

  /** One way checking these findings can turn out: every sound one is settled, no other is. */
  ghost predicate ChecksOf(findings: seq<Finding>, checked: seq<Checked>) {
    && |checked| == |findings| && SoundAreSettled(checked)
    && forall i | 0 <= i < |findings| :: checked[i].finding == findings[i]
  }

  lemma IdsStay(findings: seq<Finding>, checked: seq<Checked>)
    requires IdsDiffer(findings) && ChecksOf(findings, checked)
    ensures DistinctIds(checked)
  {
  }

  // ------------------------------------------------------------------- the count

  /** As many findings count as supported as have a verified record. */
  ghost predicate CountsRight(checked: seq<Checked>) {
    Sorted(Records(checked), []).Supported(|checked|) == |Filter(Records(checked), IsVerified)|
  }

  /** Only finding `j` is cited soundly, and its claim is contradicted. */
  function RefutedAt(findings: seq<Finding>, j: nat): (checked: seq<Checked>)
    ensures |checked| == |findings|
  {
    seq(|findings|, k requires 0 <= k < |findings| =>
      if k == j then Checked(findings[k], [Intact], Some(Settlement(ClaimContradicted, None)))
      else Checked(findings[k], [], None))
  }

  lemma RefutedIsAnOutcome(findings: seq<Finding>, j: nat)
    ensures ChecksOf(findings, RefutedAt(findings, j))
  {
    assert AreSound([Intact]) && !AreSound([]);
  }

  lemma {:induction false} Covered<T(!new)>(xs: seq<T>, p: T -> bool, q: T -> bool)
    requires forall x | x in xs :: p(x) || q(x)
    ensures |Filter(xs, p)| + |Filter(xs, q)| >= |xs|
  {
    if xs != [] {
      assert xs[|xs| - 1] in xs;
      Covered(xs[..|xs| - 1], p, q);
    }
  }

  lemma {:induction false} CoveredTwice<T(!new)>(xs: seq<T>, p: T -> bool, q: T -> bool, x: T)
    requires (forall x | x in xs :: p(x) || q(x)) && x in xs && p(x) && q(x)
    ensures |Filter(xs, p)| + |Filter(xs, q)| > |xs|
  {
    var init, last := xs[..|xs| - 1], xs[|xs| - 1];
    assert last in xs;
    if x == last {
      Covered(init, p, q);
    } else {
      CoveredTwice(init, p, q, x);
    }
  }

  lemma RefutedLookUp(findings: seq<Finding>, i: nat, j: nat)
    requires i < |findings| && j < |findings| && findings[i].Id() == findings[j].Id()
    ensures LookUp(RefutedAt(findings, j), findings[i].Id()) == Some(Settlement(ClaimContradicted, None))
  {
    var checked := RefutedAt(findings, j);
    assert checked[j].own.Some? && checked[j].finding.Id() == findings[i].Id();
    LookUpFrom(checked, findings[i].Id());
  }

  lemma OverlapMiscounts(checked: seq<Checked>, r: Record)
    requires r in Records(checked) && IsUnsound(r) && IsRefuted(r)
    requires forall r | r in Records(checked) :: IsUnsound(r) || IsRefuted(r)
    ensures !CountsRight(checked)
  {
    CoveredTwice(Records(checked), IsUnsound, IsRefuted, r);
  }

  lemma RefutedRecords(findings: seq<Finding>, i: nat, j: nat)
    requires i < |findings| && j < |findings| && findings[i].Id() == findings[j].Id() && i != j
    ensures var records := Records(RefutedAt(findings, j));
            && IsUnsound(records[i]) && IsRefuted(records[i])
            && forall r | r in records :: IsUnsound(r) || IsRefuted(r)
  {
    RefutedLookUp(findings, j, j);
    RefutedLookUp(findings, i, j);
    var records := Records(RefutedAt(findings, j));
    assert forall k | 0 <= k < |records| && k != j :: IsUnsound(records[k]);
  }

  lemma SharedIdMiscounts(findings: seq<Finding>, i: nat, j: nat)
    requires i < j < |findings| && findings[i].Id() == findings[j].Id()
    ensures ChecksOf(findings, RefutedAt(findings, j)) && !CountsRight(RefutedAt(findings, j))
  {
    RefutedIsAnOutcome(findings, j);
    RefutedRecords(findings, i, j);
    OverlapMiscounts(RefutedAt(findings, j), Records(RefutedAt(findings, j))[i]);
  }

  /**
   The count is the number of verified findings, however their checks turn out, exactly when no
   two of them share an id, which a caller can see before anything is checked.
   */
  lemma CountIsRightIff(findings: seq<Finding>)
    ensures IdsDiffer(findings) <==> forall checked | ChecksOf(findings, checked) :: CountsRight(checked)
  {
    if IdsDiffer(findings) {
      forall checked | ChecksOf(findings, checked) ensures CountsRight(checked) {
        IdsStay(findings, checked);
        NothingIsLost(checked, []);
      }
    } else {
      var i, j :| 0 <= i < j < |findings| && findings[i].Id() == findings[j].Id();
      SharedIdMiscounts(findings, i, j);
    }
  }

  // -------------------------------------------------------------------- the gate

  /** With no gap, every finding was verified on its own. */
  ghost predicate OpensRightly(checked: seq<Checked>) {
    Sorted(Records(checked), []).Gaps() == [] ==> forall i | 0 <= i < |checked| :: StandsAlone(checked[i])
  }

  /** Every finding is verified but `i`, which is cited soundly and declares nothing. */
  function UndeclaredAt(findings: seq<Finding>, i: nat): (checked: seq<Checked>)
    ensures |checked| == |findings|
  {
    seq(|findings|, k requires 0 <= k < |findings| =>
      Checked(findings[k], [Intact], Some(Settlement(if k == i then NotDeclared else ClaimVerified, None))))
  }

  lemma {:induction false} LookUpAfter(checked: seq<Checked>, id: FindingId, j: nat) returns (m: nat)
    requires j < |checked| && checked[j].finding.Id() == id && checked[j].own.Some?
    ensures j <= m < |checked| && checked[m].finding.Id() == id && checked[m].own == LookUp(checked, id)
    decreases |checked|
  {
    m := |checked| - 1;
    if !(checked[m].finding.Id() == id && checked[m].own.Some?) {
      m := LookUpAfter(checked[..m], id, j);
    }
  }

  lemma UndeclaredPasses(findings: seq<Finding>, i: nat, j: nat, k: nat)
    requires i < j < |findings| && findings[i].Id() == findings[j].Id() && k < |findings|
    ensures IsVerified(Records(UndeclaredAt(findings, i))[k])
  {
    var checked := UndeclaredAt(findings, i);
    var id := findings[k].Id();
    var m := LookUpAfter(checked, id, if id == findings[i].Id() then j else k);
    assert m != i;
  }

  lemma SharedIdOpens(findings: seq<Finding>, i: nat, j: nat)
    requires i < j < |findings| && findings[i].Id() == findings[j].Id()
    ensures ChecksOf(findings, UndeclaredAt(findings, i)) && !OpensRightly(UndeclaredAt(findings, i))
  {
    var checked := UndeclaredAt(findings, i);
    var records := Records(checked);
    forall k | 0 <= k < |records| ensures IsVerified(records[k]) {
      UndeclaredPasses(findings, i, j, k);
    }
    NoGapsIff(records, []);
    assert !StandsAlone(checked[i]);
  }

  lemma DistinctOpenRightly(checked: seq<Checked>)
    requires DistinctIds(checked) && SoundAreSettled(checked)
    ensures OpensRightly(checked)
  {
    var records := Records(checked);
    RecordsAreOwn(checked);
    NoGapsIff(records, []);
    if Sorted(records, []).Gaps() == [] {
      forall i | 0 <= i < |checked| ensures StandsAlone(checked[i]) {
        assert IsVerified(records[i]);
      }
    }
  }

  /**
   The gate opens on nothing but findings each verified on its own, however their checks turn
   out, under the very same condition.
   */
  lemma GateIsRightIff(findings: seq<Finding>)
    ensures IdsDiffer(findings) <==> forall checked | ChecksOf(findings, checked) :: OpensRightly(checked)
  {
    if IdsDiffer(findings) {
      forall checked | ChecksOf(findings, checked) ensures OpensRightly(checked) {
        IdsStay(findings, checked);
        DistinctOpenRightly(checked);
      }
    } else {
      var i, j :| 0 <= i < j < |findings| && findings[i].Id() == findings[j].Id();
      SharedIdOpens(findings, i, j);
    }
  }

  /** So with ids of their own, findings that get through are each grounded themselves. */
  lemma NoGapMeansOwnGrounded(
      contract: Contract, output: string, s: Sources, structuredRequired: bool, parsed: Parsed)
    requires contract.requiresClaimCheck && SourcesOk(s) && EntriesOk(parsed.Entries())
    requires DistinctIds(CheckAll(parsed.Entries(), s, true))
    requires Graded(contract, output, s, structuredRequired, parsed).gaps == []
    ensures forall i | 0 <= i < |parsed.Entries()| :: Grounded(parsed.Entries()[i], s)
  {
    var entries := parsed.Entries();
    var checked := CheckAll(entries, s, true);
    var uncheckable := Uncheckable(Claimed(output, contract.findingHeadings), entries);
    NoGapSays(contract, output, s, structuredRequired, parsed, uncheckable, Records(checked));
    RecordsSettle(entries, s);
    NoGapsIff(Records(checked), uncheckable);
    forall i | 0 <= i < |entries| ensures Grounded(entries[i], s) {
      assert IsVerified(Records(checked)[i]);
      OwnVerdict(checked, i);
      VerifiedIsGrounded(entries[i], i, s);
    }
  }

  // ----------------------------------------------------------- reviews it happens to

  /** A finding without what it declared. */
  function Undeclared(e: Entry): Entry {
    e.(typed := None, condition := None)
  }

  /** The same sentence, citing a source the run never read. */
  function Miscited(e: Entry, ref: Reference): Entry {
    e.(finding := e.finding.(evidence := [ref]), typed := None)
  }

  lemma UndeclaredIsNotSettled(e: Entry, i: nat, s: Sources)
    requires AreSound(CheckOne(e, i, s, true).statuses)
    ensures var c := CheckOne(Undeclared(e), i, s, true);
            AreSound(c.statuses) && c.own == Some(Settlement(NotDeclared, None))
  {
    assert CheckOne(Undeclared(e), i, s, true).statuses == CheckOne(e, i, s, true).statuses;
  }

  /**
   A review of a finding that stands alone and, before it, a copy that declares nothing: the
   copy settles nothing, and the review has no gap.
   */
  lemma UndeclaredCopyPasses(
      contract: Contract, output: string, s: Sources, structuredRequired: bool, made: Entry)
    requires contract.requiresClaimCheck && s.obs != []
    requires StandsAlone(CheckOne(made, 0, s, true)) && StandsAlone(CheckOne(made, 1, s, true))
    requires Uncheckable(Claimed(output, contract.findingHeadings), [Undeclared(made), made]) == []
    ensures CheckOne(Undeclared(made), 0, s, true).own == Some(Settlement(NotDeclared, None))
    ensures Graded(contract, output, s, structuredRequired, Block([Undeclared(made), made])).gaps == []
  {
    var entries := [Undeclared(made), made];
    UndeclaredIsNotSettled(made, 0, s);
    var checked := CheckAll(entries, s, true);
    assert checked == [checked[0], checked[1]];
    SharedIdPasses(checked[0], checked[1]);
    NoPilesNoGaps(contract, output, s, structuredRequired, entries, Records(checked));
  }

  lemma UnreadIsUnsound(f: Finding, obs: seq<Observation>, extra: set<SourceType>, reread: nat -> Reading)
    requires |f.evidence| == 1 && f.evidence[0].sourceId !in IdsOf(obs)
    ensures !AreSound(CheckFinding(f, obs, extra, reread))
  {
    assert CheckFinding(f, obs, extra, reread)[0] == UnknownSource;
  }

  lemma MiscitedIsUnsound(e: Entry, ref: Reference, i: nat, s: Sources)
    requires ref.sourceId !in IdsOf(s.obs)
    ensures !AreSound(CheckOne(Miscited(e, ref), i, s, true).statuses)
  {
    UnreadIsUnsound(Miscited(e, ref).finding, s.obs, s.extra, (j: nat) => s.readings.citing(i, j));
  }

  lemma SameCitationsSameStatuses(e: Entry, f: Entry, i: nat, s: Sources)
    requires e.finding.evidence == f.finding.evidence
    ensures CheckOne(e, i, s, true).statuses == CheckOne(f, i, s, true).statuses
  {
  }

  /** The run holds an observation of a local source that reads as it did. */
  ghost predicate IsHeld(o: Observation, i: nat, s: Sources, content: string) {
    && Holds(s.obs, o) && o.sourceType == LocalFile && IsHonest(o, content) && SourceHolds(s, i, content)
    && o.path != "" && !IsSpace(o.path[0])
  }

  /** A claim that text is there, over an excerpt it is not in. */
  lemma AbsentClaimIsContradicted(
      e: Entry, i: nat, s: Sources, o: Observation, content: string, text: string, lineNumber: int, line: string)
    requires IsHeld(o, i, s, content) && !Contains(o.excerpt, text) && e == ContainsFinding(o, text, lineNumber, line)
    ensures CheckOne(e, i, s, true).own.Some? ==>
              CheckOne(e, i, s, true).own.value.result == ClaimContradicted
  {
    ProducedIsVerifiedIff(o, content, text, lineNumber, line, s.obs, s.extra, s.tokenizer,
                          (j: nat) => s.readings.settling(i, j));
  }

  lemma SoundAndContradicted(e: Entry, i: nat, s: Sources)
    requires AreSound(CheckOne(e, i, s, true).statuses)
    requires CheckOne(e, i, s, true).own.Some? ==> CheckOne(e, i, s, true).own.value.result == ClaimContradicted
    ensures IsContradicted(CheckOne(e, i, s, true))
  {
  }

  predicate IsContradicted(c: Checked) {
    AreSound(c.statuses) && c.own.Some? && c.own.value.result == ClaimContradicted
  }

  /**
   A review of a soundly cited finding that says text is there which is not, and a copy of it
   that cites a source the run never read: no finding is supported, and coverage is minus one half.
   */
  lemma MiscitedCopyGoesNegative(
      contract: Contract, output: string, s: Sources, structuredRequired: bool, o: Observation, content: string,
      text: string, lineNumber: int, line: string, ref: Reference, refuted: Entry)
    requires IsHeld(o, 1, s, content) && !Contains(o.excerpt, text)
    requires refuted == ContainsFinding(o, text, lineNumber, line)
    requires AreSound(CheckOne(refuted, 1, s, true).statuses)
    requires contract.requiresClaimCheck && ref.sourceId !in IdsOf(s.obs)
    requires Uncheckable(Claimed(output, contract.findingHeadings), [Miscited(refuted, ref), refuted]) == []
    ensures Graded(contract, output, s, structuredRequired, Block([Miscited(refuted, ref), refuted])).coverage
            == Some(-0.5)
  {
    MiscitedIsUnsound(refuted, ref, 0, s);
    AbsentClaimIsContradicted(refuted, 1, s, o, content, text, lineNumber, line);
    SoundAndContradicted(refuted, 1, s);
    PairGoesNegative(contract, output, s, structuredRequired, [Miscited(refuted, ref), refuted]);
  }

  lemma PairGoesNegative(
      contract: Contract, output: string, s: Sources, structuredRequired: bool, entries: seq<Entry>)
    requires s.obs != [] && |entries| == 2 && contract.requiresClaimCheck
    requires entries[0].finding.Id() == entries[1].finding.Id()
    requires Uncheckable(Claimed(output, contract.findingHeadings), entries) == []
    requires !AreSound(CheckOne(entries[0], 0, s, true).statuses) && IsContradicted(CheckOne(entries[1], 1, s, true))
    ensures Graded(contract, output, s, structuredRequired, Block(entries)).coverage == Some(-0.5)
  {
    var checked := CheckAll(entries, s, true);
    SharedIdCountsTwice(checked);
    GradedIs(contract, output, s, structuredRequired, entries, Records(checked));
    CoverageOf(Sorted(Records(checked), []), Records(checked));
  }

  lemma GradedIs(
      contract: Contract, output: string, s: Sources, structuredRequired: bool, entries: seq<Entry>,
      records: seq<Record>)
    requires s.obs != [] && entries != [] && records == Records(CheckAll(entries, s, contract.requiresClaimCheck))
    requires Uncheckable(Claimed(output, contract.findingHeadings), entries) == []
    ensures Graded(contract, output, s, structuredRequired, Block(entries)) == Summed(Sorted(records, []), records)
  {
  }

  lemma CoverageOf(p: Piles, records: seq<Record>)
    requires |records| == 2 && p.uncheckable == [] && p.Supported(2) == -1
    ensures Summed(p, records).coverage == Some(-0.5)
  {
  }

  // ------------------------------------------------------------------ and there are such

  /** A file `p` that reads `a`, as collected. */
  function TheSource(): Observation {
    Observation(Derived("unknown", LocalFile, "p"), LocalFile, "p", Sha("a"), "a", 1, 1, Some(1), "unknown")
  }

  function TheSources(t: Tokenizer): Sources {
    Sources([TheSource()], {}, t, Reads((i, j) => Read("a"), (i, j) => Read("a")))
  }

  const ITS_LINE := Candidate("a", "", 0, "a")

  lemma OneLineText()
    ensures SplitLines("a") == ["a"] && JoinLines(["a"]) == "a" && Contains("a", "a")
  {
    assert "a"[0] == 'a' && NoBreak("a");
    SplitOne("a");
    ContainsItself("a");
  }

  /** The finding that the source holds `a`, and one that it holds some other text. */
  function SaysA(): Entry { FindingOf(TheSource(), ITS_LINE) }

  function Says(text: string): Entry { ContainsFinding(TheSource(), text, 1, "a") }

  function Unread(): Reference { Reference(Named("q"), Sha("a"), 1, 1, "a") }

  lemma ItIsCollected()
    ensures Collect("unknown", "p", "a", 80, 1, None) == Ok(TheSource())
  {
    OneLineText();
    assert "p"[0] == 'p' && !IsSpace('p');
  }

  lemma ItIsMade(t: Tokenizer, i: nat)
    ensures MadeFrom(SaysA(), TheSource(), ITS_LINE, "a", TheSources(t)) && SourceHolds(TheSources(t), i, "a")
    ensures SourcesOk(TheSources(t))
  {
    OneLineText();
    assert Window(["a"], 1, 1) == ["a"];
    assert "p"[0] == 'p' && !IsSpace('p');
  }

  lemma ItStandsAlone(t: Tokenizer, i: nat)
    ensures StandsAlone(CheckOne(SaysA(), i, TheSources(t), true))
  {
    ItIsMade(t, i);
    MadeStands(SaysA(), i, TheSources(t), TheSource(), ITS_LINE, "a");
  }

  lemma SameCitation(text: string)
    ensures Says(text).finding.evidence == SaysA().finding.evidence
  {
  }

  lemma StandingCitations(e: Entry, f: Entry, i: nat, s: Sources)
    requires e.finding.evidence == f.finding.evidence && StandsAlone(CheckOne(f, i, s, true))
    ensures AreSound(CheckOne(e, i, s, true).statuses)
  {
    SameCitationsSameStatuses(e, f, i, s);
  }

  lemma SaysIsSound(t: Tokenizer, i: nat, text: string)
    ensures AreSound(CheckOne(Says(text), i, TheSources(t), true).statuses)
  {
    ItStandsAlone(t, i);
    SameCitation(text);
    StandingCitations(Says(text), SaysA(), i, TheSources(t));
  }

  lemma ItIsHeld(t: Tokenizer, i: nat)
    ensures IsHeld(TheSource(), i, TheSources(t), "a")
  {
    ItIsMade(t, i);
  }

  lemma NothingClaimed(contract: Contract)
    ensures Claimed("", contract.findingHeadings) == []
  {
  }

  /**
   One such review of each kind, of a file `p` that reads `a`, whatever the contract that asks
   for claim checks: the gate opens on a finding that settled nothing; coverage is negative.
   */
  lemma SharedIdsHappen(contract: Contract, t: Tokenizer, text: string)
    requires contract.requiresClaimCheck && !Contains("a", text)
    ensures SourcesOk(TheSources(t)) && Collect("unknown", "p", "a", 80, 1, None) == Ok(TheSource())
    ensures CheckOne(Undeclared(SaysA()), 0, TheSources(t), true).own == Some(Settlement(NotDeclared, None))
    ensures Graded(contract, "", TheSources(t), true, Block([Undeclared(SaysA()), SaysA()])).gaps == []
    ensures Graded(contract, "", TheSources(t), true, Block([Miscited(Says(text), Unread()), Says(text)])).coverage
            == Some(-0.5)
  {
    ItIsCollected();
    NothingClaimed(contract);
    ItIsMade(t, 0);
    ItStandsAlone(t, 0);
    ItStandsAlone(t, 1);
    UndeclaredCopyPasses(contract, "", TheSources(t), true, SaysA());
    ItIsHeld(t, 1);
    SaysIsSound(t, 1, text);
    MiscitedCopyGoesNegative(
      contract, "", TheSources(t), true, TheSource(), "a", text, 1, "a", Unread(), Says(text));
  }
}
