/** What a grade is worth: conservation, when the gate is open, and what getting through means. */
module GradingProofs {
  import opened Wrappers
  import opened Chains
  import opened Lines
  import opened Observations
  import opened Observers
  import opened Findings
  import opened ClaimChecks
  import opened Evidence
  import opened Grading

  // ------------------------------------------------------------- verdicts by id

  ghost predicate DistinctIds(checked: seq<Checked>) {
    forall i, j | 0 <= i < j < |checked| :: checked[i].finding.Id() != checked[j].finding.Id()
  }

  /** Every sound finding was settled: what `CheckAll` makes of a route that asks for it. */
  ghost predicate SoundAreSettled(checked: seq<Checked>) {
    forall i | 0 <= i < |checked| :: checked[i].own.Some? <==> AreSound(checked[i].statuses)
  }

  lemma {:induction false} LookUpFrom(checked: seq<Checked>, id: FindingId)
    ensures LookUp(checked, id).Some?
            <==> exists i | 0 <= i < |checked| :: checked[i].finding.Id() == id && checked[i].own.Some?
    ensures LookUp(checked, id).Some? ==>
              exists i | 0 <= i < |checked| ::
                checked[i].finding.Id() == id && checked[i].own == LookUp(checked, id)
  {
    if checked != [] {
      var init, last := checked[..|checked| - 1], checked[|checked| - 1];
      LookUpFrom(init, id);
      if !(last.finding.Id() == id && last.own.Some?) {
        if i :| 0 <= i < |checked| && checked[i].finding.Id() == id && checked[i].own.Some? {
          assert init[i] == checked[i];
        }
        if LookUp(init, id).Some? {
          var i :| 0 <= i < |init| && init[i].finding.Id() == id && init[i].own == LookUp(init, id);
          assert checked[i] == init[i];
        }
      }
    }
  }

  /** With ids of their own, findings keep verdicts of their own. */
  lemma OwnVerdict(checked: seq<Checked>, i: nat)
    requires DistinctIds(checked) && i < |checked|
    ensures LookUp(checked, checked[i].finding.Id()) == checked[i].own
  {
    var id := checked[i].finding.Id();
    LookUpFrom(checked, id);
    if LookUp(checked, id).Some? {
      var j :| 0 <= j < |checked| && checked[j].finding.Id() == id && checked[j].own == LookUp(checked, id);
      assert i == j;
    }
  }

  predicate NoNul(s: string) {
    forall i | 0 <= i < |s| :: s[i] != '\0'
  }

  lemma NulAt(a: string, b: string)
    requires NoNul(a)
    ensures var s := a + "\0" + b;
            |a| < |s| && s[|a|] == '\0' && NoNul(s[..|a|]) && s[..|a|] == a && s[|a| + 1..] == b
  {
  }

  lemma SplitAtNul(a: string, b: string, c: string, d: string)
    requires NoNul(a) && NoNul(c) && a + "\0" + b == c + "\0" + d
    ensures a == c && b == d
  {
    NulAt(a, b);
    NulAt(c, d);
    var s := a + "\0" + b;
    assert s == c + "\0" + d;
    assert forall k | 0 <= k < |a| :: s[k] == s[..|a|][k];
    assert forall k | 0 <= k < |c| :: s[k] == s[..|c|][k];
    assert |a| == |c|;
  }

  /** Claims without a NUL have the same id exactly when claim and scope are the same. */
  lemma IdIsClaimAndScope(f: Finding, g: Finding)
    requires NoNul(f.claim) && NoNul(g.claim)
    ensures f.Id() == g.Id() <==> f.claim == g.claim && f.scope == g.scope
  {
    if f.Id() == g.Id() { SplitAtNul(f.claim, f.scope, g.claim, g.scope); }
  }

  // -------------------------------------------------------------- conservation

  predicate IsVerified(r: Record) {
    AreSound(r.statuses) && Came(r, ClaimVerified)
  }

  /** A record in its own right: settled exactly when its citations are sound. */
  predicate Own(r: Record) {
    r.settled.Some? <==> AreSound(r.statuses)
  }

  /** Every record is in exactly one pile, or verified. */
  lemma {:induction false} Partition(records: seq<Record>)
    requires forall i | 0 <= i < |records| :: Own(records[i])
    ensures var p := Sorted(records, []);
            |p.unsound| + |p.refuted| + |p.mismatched| + |p.open| + |Filter(records, IsVerified)|
            == |records|
  {
    if records != [] {
      var init, last := records[..|records| - 1], records[|records| - 1];
      Partition(init);
      assert Own(last);
    }
  }

  lemma RecordsAreOwn(checked: seq<Checked>)
    requires DistinctIds(checked) && SoundAreSettled(checked)
    ensures forall i | 0 <= i < |checked| ::
              Own(Records(checked)[i]) && Records(checked)[i].settled == checked[i].own
  {
    forall i | 0 <= i < |checked| ensures Own(Records(checked)[i]) && Records(checked)[i].settled == checked[i].own {
      OwnVerdict(checked, i);
    }
  }

  /** Findings are neither lost nor counted twice when their ids differ. */
  lemma NothingIsLost(checked: seq<Checked>, uncheckable: seq<string>)
    requires DistinctIds(checked) && SoundAreSettled(checked)
    ensures var p, verified := Sorted(Records(checked), uncheckable), |Filter(Records(checked), IsVerified)|;
            && |p.unsound| + |p.refuted| + |p.mismatched| + |p.open| + verified == |checked|
            && p.Supported(|checked| + |uncheckable|) == verified <= |checked|
  {
    RecordsAreOwn(checked);
    Partition(Records(checked));
  }

  /** Coverage is the share of the supported findings, and a share when those are verified ones. */
  lemma CoverageIsAShare(p: Piles, records: seq<Record>, verified: nat)
    requires |records| + |p.uncheckable| > 0
    requires p.Supported(|records| + |p.uncheckable|) == verified <= |records|
    ensures var considered := |records| + |p.uncheckable|;
            var coverage := Summed(p, records).coverage;
            coverage == Some(verified as real / considered as real) && 0.0 <= coverage.value <= 1.0
  {
    ShareIsAShare(verified, |records| + |p.uncheckable|);
  }

  lemma ShareIsAShare(part: nat, whole: nat)
    requires part <= whole && whole > 0
    ensures 0.0 <= part as real / whole as real <= 1.0
  {
    var share := part as real / whole as real;
    assert share * whole as real == part as real;
  }

  lemma PairCounts(records: seq<Record>)
    requires |records| == 2 && IsUnsound(records[0]) && !IsUnsound(records[1])
    requires IsRefuted(records[0]) && IsRefuted(records[1])
    ensures Sorted(records, []).Supported(2) == -1
  {
    FilterPair(records, IsUnsound);
    FilterPair(records, IsRefuted);
    FilterPair(records, IsMismatched);
    FilterPair(records, IsUnchecked);
  }

  /**
   Two findings with one id share a verdict, and then the count goes wrong: a finding with
   broken citations beside a refuted one of the same id is counted twice, below zero.
   */
  lemma SharedIdCountsTwice(checked: seq<Checked>)
    requires |checked| == 2 && checked[0].finding.Id() == checked[1].finding.Id()
    requires !AreSound(checked[0].statuses)
    requires AreSound(checked[1].statuses)
    requires checked[1].own.Some? && checked[1].own.value.result == ClaimContradicted
    ensures Sorted(Records(checked), []).Supported(2) == -1
  {
    assert LookUp(checked, checked[1].finding.Id()) == checked[1].own;
    PairCounts(Records(checked));
  }

  /** The same sharing lets a finding that settled nothing through, on another's verdict. */
  lemma SharedIdPasses(unsettled: Checked, verified: Checked)
    requires unsettled.finding.Id() == verified.finding.Id()
    requires AreSound(unsettled.statuses) && unsettled.own.Some? && unsettled.own.value.result == NotDeclared
    requires AreSound(verified.statuses) && verified.own.Some? && verified.own.value.result == ClaimVerified
    ensures Sorted(Records([unsettled, verified]), []).Gaps() == []
  {
    var checked := [unsettled, verified];
    assert LookUp(checked, unsettled.finding.Id()) == verified.own;
    var records := Records(checked);
    assert records[0].settled == verified.own && records[1].settled == verified.own;
    assert !IsUnsound(records[0]) && !IsUnchecked(records[0]) && !Came(records[0], TextMismatch);
  }

  // ------------------------------------------------------------------ the gate

  lemma SettledRecords(checked: seq<Checked>)
    requires SoundAreSettled(checked)
    ensures forall i | 0 <= i < |checked| ::
              AreSound(checked[i].statuses) ==> Records(checked)[i].settled.Some?
  {
    forall i | 0 <= i < |checked| && AreSound(checked[i].statuses) ensures Records(checked)[i].settled.Some? {
      LookUpFrom(checked, checked[i].finding.Id());
    }
  }

  /** No gap exactly when every bullet is a declared claim and every record is verified. */
  lemma NoGapsIff(records: seq<Record>, uncheckable: seq<string>)
    requires forall i | 0 <= i < |records| :: AreSound(records[i].statuses) ==> records[i].settled.Some?
    ensures Sorted(records, uncheckable).Gaps() == []
            <==> uncheckable == [] && forall i | 0 <= i < |records| :: IsVerified(records[i])
  {
    if Sorted(records, uncheckable).Gaps() == [] {
      forall i | 0 <= i < |records| ensures IsVerified(records[i]) {
        assert records[i] in records;
      }
    }
  }

  /** Whether a retry is offered: always, unless a source has to be read again first. */
  lemma RetryIsOfferedIff(records: seq<Record>, uncheckable: seq<string>)
    requires |records| + |uncheckable| > 0
    ensures var g := Summed(Sorted(records, uncheckable), records);
            && (g.gaps != [] ==> (g.actionable <==> g.blockedBy == {}))
            && (g.gaps == [] ==> !g.actionable && g.blockedBy == {})
  {
  }

  // --------------------------------------------------- what getting through means

  /** Every citation of a finding quotes part of an excerpt the run recorded of text it re-read. */
  ghost predicate CitationsHold(f: Finding, obs: seq<Observation>) {
    f.evidence != []
    && forall k | 0 <= k < |f.evidence| :: HoldsSomewhere(f.evidence[k], obs)
  }

  ghost predicate HoldsSomewhere(ref: Reference, obs: seq<Observation>) {
    exists i | 0 <= i < |obs| :: CitationHolds(ref, obs[i])
  }

  predicate CitationHolds(ref: Reference, o: Observation) {
    && o.sourceId == ref.sourceId && o.digest == ref.digest && Honest(o)
    && o.lineStart <= ref.lineStart <= ref.lineEnd <= o.lineEnd
    && Contains(o.excerpt, ref.quoted)
  }

  /** A typed claim of this finding is true of excerpts that say what is at their lines. */
  ghost predicate Grounded(e: Entry, s: Sources) {
    e.typed.Some? && Settled(e.finding, e.typed.value, s.obs, s.tokenizer)
    && CitationsHold(e.finding, s.obs)
  }

  ghost predicate EntriesOk(entries: seq<Entry>) {
    forall i | 0 <= i < |entries| :: FindingOk(entries[i].finding)
  }

  ghost predicate SourcesOk(s: Sources) {
    forall i | 0 <= i < |s.obs| :: Valid(s.obs[i])
  }

  lemma SoundCitationsHold(e: Entry, i: nat, s: Sources)
    requires SourcesOk(s) && FindingOk(e.finding)
    requires AreSound(CheckOne(e, i, s, true).statuses)
    ensures CitationsHold(e.finding, s.obs)
  {
    var statuses := CheckOne(e, i, s, true).statuses;
    var f := e.finding;
    forall k | 0 <= k < |f.evidence| ensures HoldsSomewhere(f.evidence[k], s.obs) {
      assert statuses[k] == Intact;
      IntactHolds(f.evidence[k], s.obs, s.extra, s.readings.citing(i, k));
    }
  }

  lemma IntactHolds(ref: Reference, obs: seq<Observation>, extra: set<SourceType>, reading: Reading)
    requires ReferenceOk(ref) && forall i | 0 <= i < |obs| :: Valid(obs[i])
    requires CheckReference(ref, obs, extra, reading) == Intact
    ensures HoldsSomewhere(ref, obs)
  {
    IntactMeans(ref, obs, extra, reading);
    var n :| 0 <= n < |obs| && obs[n].sourceId == ref.sourceId && obs[n].digest == ref.digest
             && reading.Read? && IsHonest(obs[n], reading.content)
             && obs[n].lineStart <= ref.lineStart <= ref.lineEnd <= obs[n].lineEnd
             && Contains(obs[n].excerpt, ref.quoted);
    assert CitationHolds(ref, obs[n]);
  }

  lemma VerifiedIsGrounded(e: Entry, i: nat, s: Sources)
    requires SourcesOk(s) && FindingOk(e.finding)
    requires var c := CheckOne(e, i, s, true); c.own.Some? && c.own.value.result == ClaimVerified
    ensures Grounded(e, s)
  {
    SoundCitationsHold(e, i, s);
    VerifiedMeansTrue(e.finding, e.typed, e.condition, s.obs, s.extra, s.tokenizer,
                      (j: nat) => s.readings.settling(i, j));
  }

  /** Its citations hold, and it, or a finding of the same id, is grounded (`SharedIds` says when it is). */
  ghost predicate Carried(entries: seq<Entry>, i: nat, s: Sources)
    requires i < |entries|
  {
    CitationsHold(entries[i].finding, s.obs)
    && exists j | 0 <= j < |entries| ::
         Grounded(entries[j], s) && entries[j].finding.Id() == entries[i].finding.Id()
         && (NoNul(entries[i].finding.claim) && NoNul(entries[j].finding.claim) ==>
               entries[j].finding.claim == entries[i].finding.claim
               && entries[j].finding.scope == entries[i].finding.scope)
  }

  lemma VerifiedRecordIsCarried(entries: seq<Entry>, i: nat, s: Sources)
    requires SourcesOk(s) && EntriesOk(entries) && i < |entries|
    requires IsVerified(Records(CheckAll(entries, s, true))[i])
    ensures Carried(entries, i, s)
  {
    var checked := CheckAll(entries, s, true);
    SoundCitationsHold(entries[i], i, s);
    var id := entries[i].finding.Id();
    LookUpFrom(checked, id);
    var j :| 0 <= j < |checked| && checked[j].finding.Id() == id && checked[j].own == LookUp(checked, id);
    VerifiedIsGrounded(entries[j], j, s);
    if NoNul(entries[i].finding.claim) && NoNul(entries[j].finding.claim) {
      IdIsClaimAndScope(entries[j].finding, entries[i].finding);
    }
  }

  /** What an empty list of gaps says about the parts a grade is made of. */
  lemma NoGapSays(
      contract: Contract, output: string, s: Sources, structuredRequired: bool, parsed: Parsed,
      uncheckable: seq<string>, records: seq<Record>)
    requires uncheckable == Uncheckable(Claimed(output, contract.findingHeadings), parsed.Entries())
    requires records == Records(CheckAll(parsed.Entries(), s, contract.requiresClaimCheck))
    requires Graded(contract, output, s, structuredRequired, parsed).gaps == []
    ensures s.obs != [] && parsed != Malformed && (structuredRequired ==> parsed != NoBlock)
    ensures parsed.Entries() == [] && uncheckable == [] ==> Contains(output, contract.evidenceHeading)
    ensures !(parsed.Entries() == [] && uncheckable == []) ==> Sorted(records, uncheckable).Gaps() == []
  {
  }

  lemma NothingUncheckable(prose: seq<string>, entries: seq<Entry>)
    requires Uncheckable(prose, entries) == []
    ensures forall bullet | bullet in prose :: exists i | 0 <= i < |entries| :: entries[i].finding.claim == bullet
  {
  }

  /**
   The gate never opens on an unsettled finding: with no gap, every bullet under a findings
   heading is a declared claim, and every declared claim has citations that hold and is, word
   for word, a typed claim true of lines the run observed.
   */
  lemma NoGapMeansGrounded(
      contract: Contract, output: string, s: Sources, structuredRequired: bool, parsed: Parsed)
    requires contract.requiresClaimCheck && SourcesOk(s) && EntriesOk(parsed.Entries())
    requires Graded(contract, output, s, structuredRequired, parsed).gaps == []
    ensures s.obs != [] && parsed != Malformed && (structuredRequired ==> parsed != NoBlock)
    ensures forall i | 0 <= i < |parsed.Entries()| :: Carried(parsed.Entries(), i, s)
    ensures forall bullet | bullet in Claimed(output, contract.findingHeadings) ::
              exists i | 0 <= i < |parsed.Entries()| :: parsed.Entries()[i].finding.claim == bullet
    ensures parsed.Entries() == [] ==> Contains(output, contract.evidenceHeading)
  {
    var entries := parsed.Entries();
    var prose := Claimed(output, contract.findingHeadings);
    var uncheckable := Uncheckable(prose, entries);
    var records := Records(CheckAll(entries, s, true));
    NoGapSays(contract, output, s, structuredRequired, parsed, uncheckable, records);
    RecordsSettle(entries, s);
    NoGapsIff(records, uncheckable);
    NothingUncheckable(prose, entries);
    forall i | 0 <= i < |entries| ensures Carried(entries, i, s) {
      VerifiedRecordIsCarried(entries, i, s);
    }
  }

  lemma RecordsSettle(entries: seq<Entry>, s: Sources)
    ensures var records := Records(CheckAll(entries, s, true));
            forall i | 0 <= i < |records| :: AreSound(records[i].statuses) ==> records[i].settled.Some?
  {
    SettledRecords(CheckAll(entries, s, true));
  }
}
