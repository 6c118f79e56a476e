/**
 The gate from the other side: what Atlas writes itself, over sources that have not changed,
 always gets through it.
 */
module ProducedReviews {
  import opened Wrappers
  import opened Lines
  import opened Observations
  import opened Snapshots
  import opened Findings
  import opened ClaimChecks
  import opened Evidence
  import opened Grading
  import opened GradingProofs
  import opened ReviewProducers

  /** The reads that check one finding all find this content. */
  ghost predicate SourceHolds(s: Sources, i: nat, content: string) {
    && IsUnchanged((j: nat) => s.readings.citing(i, j), content)
    && IsUnchanged((j: nat) => s.readings.settling(i, j), content)
  }

  /** A finding a producer made of a literal on a line of a held observation. */
  ghost predicate MadeFrom(e: Entry, o: Observation, c: Candidate, content: string, s: Sources) {
    && Faithful(o, content) && Holds(s.obs, o) && IsAt(SplitLines(o.excerpt), c)
    && !IsSpace(o.path[0]) && e == FindingOf(o, c)
  }

  ghost predicate IsProduced(e: Entry, i: nat, s: Sources) {
    exists o: Observation, c: Candidate, content: string ::
      MadeFrom(e, o, c, content, s) && SourceHolds(s, i, content)
  }

  lemma ProducedIsSound(e: Entry, i: nat, s: Sources, o: Observation, c: Candidate, content: string)
    requires MadeFrom(e, o, c, content, s) && SourceHolds(s, i, content)
    ensures AreSound(CheckOne(e, i, s, true).statuses)
  {
    ProducedIsIntact(o, content, c, s.obs, s.extra, (j: nat) => s.readings.citing(i, j));
  }

  lemma WasObserved(e: Entry, s: Sources, o: Observation, c: Candidate, content: string)
    requires MadeFrom(e, o, c, content, s)
    ensures o.sourceType == LocalFile && IsHonest(o, content) && Contains(o.excerpt, c.literal)
  {
    LiteralWasObserved(o, content, c);
  }

  lemma SayingIsOwned(e: Entry, i: nat, s: Sources, o: Observation, content: string)
    requires SaysWhatHolds(e, o) && Holds(s.obs, o) && o.sourceType == LocalFile && IsHonest(o, content)
    requires SourceHolds(s, i, content)
    ensures CheckOne(e, i, s, true).own.Some? ==> CheckOne(e, i, s, true).own.value.result == ClaimVerified
  {
    SayingIsSettling(
      e, o, content, s.obs, s.extra, s.tokenizer, (j: nat) => s.readings.settling(i, j));
  }

  /** Sound citations and a claim that came out verified. */
  predicate StandsAlone(c: Checked) {
    AreSound(c.statuses) && c.own.Some? && c.own.value.result == ClaimVerified
  }

  lemma TrueIsOwned(e: Entry, i: nat, s: Sources, o: Observation, c: Candidate, content: string)
    requires e == FindingOf(o, c) && Holds(s.obs, o) && o.path != "" && !IsSpace(o.path[0])
    requires o.sourceType == LocalFile && IsHonest(o, content) && Contains(o.excerpt, c.literal)
    requires SourceHolds(s, i, content)
    ensures CheckOne(e, i, s, true).own.Some? ==> CheckOne(e, i, s, true).own.value.result == ClaimVerified
  {
    FindingSaysWhatHolds(e, o, c);
    SayingIsOwned(e, i, s, o, content);
  }

  lemma MadeStands(e: Entry, i: nat, s: Sources, o: Observation, c: Candidate, content: string)
    requires MadeFrom(e, o, c, content, s) && SourceHolds(s, i, content)
    ensures StandsAlone(CheckOne(e, i, s, true))
  {
    ProducedIsSound(e, i, s, o, c, content);
    WasObserved(e, s, o, c, content);
    TrueIsOwned(e, i, s, o, c, content);
  }

  lemma ProducedStands(e: Entry, i: nat, s: Sources)
    requires IsProduced(e, i, s)
    ensures StandsAlone(CheckOne(e, i, s, true))
  {
    var o: Observation, c: Candidate, content: string :|
      MadeFrom(e, o, c, content, s) && SourceHolds(s, i, content);
    MadeStands(e, i, s, o, c, content);
  }

  /** When every finding stands alone, sharing an id does no harm. */
  lemma AllStandMeansVerified(checked: seq<Checked>, i: nat)
    requires i < |checked| && forall k | 0 <= k < |checked| :: StandsAlone(checked[k])
    ensures IsVerified(Records(checked)[i])
  {
    var id := checked[i].finding.Id();
    LookUpFrom(checked, id);
    assert StandsAlone(checked[i]);
    var j :| 0 <= j < |checked| && checked[j].finding.Id() == id && checked[j].own == LookUp(checked, id);
    assert StandsAlone(checked[j]);
  }

  lemma NoPilesNoGaps(
      contract: Contract, output: string, s: Sources, structuredRequired: bool, entries: seq<Entry>,
      records: seq<Record>)
    requires s.obs != [] && entries != [] && records == Records(CheckAll(entries, s, contract.requiresClaimCheck))
    requires Uncheckable(Claimed(output, contract.findingHeadings), entries) == []
    requires Sorted(records, []).Gaps() == []
    ensures Graded(contract, output, s, structuredRequired, Block(entries)).gaps == []
  {
  }

  /**
   A review made of produced findings has no gap over unchanged sources, whatever else its
   output says, as long as its bullets are its findings.
   */
  lemma ProducedReviewHasNoGap(
      contract: Contract, output: string, s: Sources, structuredRequired: bool, entries: seq<Entry>)
    requires contract.requiresClaimCheck && entries != []
    requires forall i | 0 <= i < |entries| :: IsProduced(entries[i], i, s)
    requires Uncheckable(Claimed(output, contract.findingHeadings), entries) == []
    ensures Graded(contract, output, s, structuredRequired, Block(entries)).gaps == []
  {
    var checked := CheckAll(entries, s, true);
    var records := Records(checked);
    forall i | 0 <= i < |checked| ensures StandsAlone(checked[i]) {
      ProducedStands(entries[i], i, s);
    }
    forall i | 0 <= i < |records| ensures IsVerified(records[i]) {
      AllStandMeansVerified(checked, i);
    }
    NoGapsIff(records, []);
    SourcesAreHeld(entries[0], s);
    NoPilesNoGaps(contract, output, s, structuredRequired, entries, records);
  }

  lemma SourcesAreHeld(e: Entry, s: Sources)
    requires IsProduced(e, 0, s)
    ensures s.obs != []
  {
  }
}
