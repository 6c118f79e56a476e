/**
 Reading again in the middle of a run: what may be asked for, and how an answer is folded
 into what the run already holds.
 */
module Observers {
  import opened Wrappers
  import opened Lines
  import opened Observations
  import opened Snapshots

  // ---------------------------------------------------------------- requests

  datatype LineWindow = LineWindow(path: string, lineStart: int, maxLines: int, anchor: Option<string>)

  predicate WindowOk(w: LineWindow) {
    && !Blank(w.path) && w.lineStart >= 1 && 1 <= w.maxLines <= DEFAULT_MAX_LINES
    && (w.anchor.Some? ==> w.lineStart == 1 && GoodAnchor(w.anchor.value))
  }

  /** A request carries at most one window for a path. */
  predicate WindowsOk(windows: seq<LineWindow>) {
    && (forall i | 0 <= i < |windows| :: WindowOk(windows[i]))
    && forall i, j | 0 <= i < j < |windows| :: windows[i].path != windows[j].path
  }

  // ------------------------------------------------------------------ a base

  function IdsOf(obs: seq<Observation>): set<SourceId> {
    set i | 0 <= i < |obs| :: obs[i].sourceId
  }

  predicate UniqueIds(obs: seq<Observation>) {
    forall i, j | 0 <= i < j < |obs| :: obs[i].sourceId != obs[j].sourceId
  }

  predicate OneSnapshot(snapshotId: string, obs: seq<Observation>) {
    forall i | 0 <= i < |obs| :: obs[i].snapshotId == snapshotId
  }

  /** What an evidence base accepts: one snapshot, and no source twice. */
  predicate BaseOk(snapshotId: string, obs: seq<Observation>) {
    OneSnapshot(snapshotId, obs) && UniqueIds(obs)
  }

  function PositionOf(obs: seq<Observation>, id: SourceId): (p: Option<nat>)
    ensures p.Some? <==> id in IdsOf(obs)
    ensures p.Some? ==> p.value < |obs| && obs[p.value].sourceId == id
  {
    if obs == [] then None
    else
      assert IdsOf(obs) == IdsOf(obs[..|obs| - 1]) + {obs[|obs| - 1].sourceId} by {
        forall x | x in IdsOf(obs) ensures x in IdsOf(obs[..|obs| - 1]) + {obs[|obs| - 1].sourceId} {
          var i :| 0 <= i < |obs| && obs[i].sourceId == x;
          if i < |obs| - 1 { assert obs[..|obs| - 1][i].sourceId == x; }
        }
      }
      if obs[|obs| - 1].sourceId == id then Some(|obs| - 1) else PositionOf(obs[..|obs| - 1], id)
  }

  // ------------------------------------------------------------------ merging

  datatype Supersession = Supersession(sourceId: SourceId, path: string, previous: Digest, current: Digest)

  datatype Reframing = Reframing(
    sourceId: SourceId, path: string, digest: Digest,
    previousStart: int, previousEnd: int, newStart: int, newEnd: int)

  datatype Round = Round(
    added: seq<Observation>, superseded: seq<Supersession>, reframed: seq<Reframing>,
    same: seq<SourceId>, requested: nat)
  {
    predicate HasNewMaterial() { added != [] || superseded != [] || reframed != [] }
  }

  datatype ObservationRefused = ForeignSnapshot(sourceId: SourceId) | TwiceInOneRound(sourceId: SourceId)

  predicate SameWindow(a: Observation, b: Observation) {
    a.lineStart == b.lineStart && a.lineEnd == b.lineEnd && a.excerpt == b.excerpt
  }

  datatype Kind = Added | Superseded | Reframed | Unchanged

  function KindOf(existing: seq<Observation>, item: Observation): Kind {
    var p := PositionOf(existing, item.sourceId);
    if p.None? then Added
    else if existing[p.value].digest != item.digest then Superseded
    else if !SameWindow(existing[p.value], item) then Reframed
    else Unchanged
  }

  function SupersessionOf(previous: Observation, item: Observation): Supersession {
    Supersession(item.sourceId, item.path, previous.digest, item.digest)
  }

  function ReframingOf(previous: Observation, item: Observation): Reframing {
    Reframing(item.sourceId, item.path, item.digest,
              previous.lineStart, previous.lineEnd, item.lineStart, item.lineEnd)
  }

  /** What a round records about an answer, item by item. */
  function RoundOf(existing: seq<Observation>, incoming: seq<Observation>): (r: Round)
    ensures r.requested == |incoming|
  {
    if incoming == [] then Round([], [], [], [], 0)
    else Recorded(RoundOf(existing, incoming[..|incoming| - 1]), existing, incoming[|incoming| - 1])
  }

  function Recorded(r: Round, existing: seq<Observation>, item: Observation): Round {
    var p := PositionOf(existing, item.sourceId);
    var next := r.(requested := r.requested + 1);
    match KindOf(existing, item)
    case Added => next.(added := r.added + [item])
    case Superseded => next.(superseded := r.superseded + [SupersessionOf(existing[p.value], item)])
    case Reframed => next.(reframed := r.reframed + [ReframingOf(existing[p.value], item)])
    case Unchanged => next.(same := r.same + [item.sourceId])
  }

  lemma RoundStep(existing: seq<Observation>, done: seq<Observation>, item: Observation)
    ensures RoundOf(existing, done + [item]) == Recorded(RoundOf(existing, done), existing, item)
  {
    assert (done + [item])[..|done|] == done;
  }

  /** The current reading of a source held before the round. */
  function Current(held: Observation, incoming: seq<Observation>): Observation {
    var p := PositionOf(incoming, held.sourceId);
    if p.None? then held
    else
      var item := incoming[p.value];
      if held.digest == item.digest && SameWindow(held, item) then held else item
  }

  function Currents(existing: seq<Observation>, incoming: seq<Observation>): (r: seq<Observation>)
    ensures |r| == |existing|
  {
    seq(|existing|, i requires 0 <= i < |existing| => Current(existing[i], incoming))
  }

  /** What the run holds after a round: every source where it was, then the new ones. */
  function Merged(existing: seq<Observation>, incoming: seq<Observation>): seq<Observation> {
    Currents(existing, incoming) + RoundOf(existing, incoming).added
  }

  lemma IdsGrow(obs: seq<Observation>, item: Observation)
    ensures IdsOf(obs + [item]) == IdsOf(obs) + {item.sourceId}
  {
    forall x | x in IdsOf(obs) + {item.sourceId} ensures x in IdsOf(obs + [item]) {
      if x == item.sourceId {
        assert (obs + [item])[|obs|].sourceId == x;
      } else {
        var i :| 0 <= i < |obs| && obs[i].sourceId == x;
        assert (obs + [item])[i].sourceId == x;
      }
    }
  }

  lemma CurrentStep(held: Observation, done: seq<Observation>, item: Observation)
    requires item.sourceId !in IdsOf(done)
    ensures Current(held, done + [item])
            == if held.sourceId != item.sourceId then Current(held, done)
               else if held.digest == item.digest && SameWindow(held, item) then held else item
    ensures held.sourceId == item.sourceId ==> Current(held, done) == held
  {
    assert (done + [item])[..|done|] == done;
  }

  lemma CurrentsStep(existing: seq<Observation>, done: seq<Observation>, item: Observation)
    requires UniqueIds(existing) && item.sourceId !in IdsOf(done)
    ensures var before, after := Currents(existing, done), Currents(existing, done + [item]);
            var p := PositionOf(existing, item.sourceId);
            if p.None? then after == before
            else && before[p.value] == existing[p.value]
                 && after == before[p.value := if KindOf(existing, item) == Unchanged then existing[p.value] else item]
  {
    var before, after := Currents(existing, done), Currents(existing, done + [item]);
    var p := PositionOf(existing, item.sourceId);
    forall i | 0 <= i < |existing| && p != Some(i) ensures after[i] == before[i] {
      assert existing[i].sourceId != item.sourceId by {
        assert existing[i].sourceId in IdsOf(existing);
      }
      CurrentStep(existing[i], done, item);
    }
    if p.Some? { CurrentStep(existing[p.value], done, item); }
  }

  /** `list.index`: the first place a value sits. */
  function IndexOf(obs: seq<Observation>, item: Observation): (p: nat)
    requires item in obs
    ensures p < |obs| && obs[p] == item && forall i | 0 <= i < p :: obs[i] != item
  {
    if obs[0] == item then 0 else 1 + IndexOf(obs[1..], item)
  }

  method MergeObservations(snapshotId: string, existing: seq<Observation>, incoming: seq<Observation>)
      returns (r: Result<(seq<Observation>, Round), ObservationRefused>)
    requires UniqueIds(existing)
    ensures r.Ok? <==> OneSnapshot(snapshotId, incoming) && UniqueIds(incoming)
    ensures r.Ok? ==> r.value == (Merged(existing, incoming), RoundOf(existing, incoming))
  {
    var merged := existing;
    var round := Round([], [], [], [], 0);
    var seen: set<SourceId> := {};
    NothingMerged(existing);
    for k := 0 to |incoming|
      invariant OneSnapshot(snapshotId, incoming[..k]) && UniqueIds(incoming[..k])
      invariant seen == IdsOf(incoming[..k])
      invariant merged == Merged(existing, incoming[..k])
      invariant round == RoundOf(existing, incoming[..k])
    {
      var item := incoming[k];
      if item.snapshotId != snapshotId {
        return Err(ForeignSnapshot(item.sourceId));
      }
      if item.sourceId in seen {
        Repeats(incoming, k);
        return Err(TwiceInOneRound(item.sourceId));
      }
      ghost var done := incoming[..k];
      assert incoming[..k + 1] == done + [item];
      StillUnique(done, item);
      seen := seen + {item.sourceId};
      merged := PlaceOne(existing, merged, item, done);
      round := RecordOne(existing, round, item, done);
    }
    assert incoming[..|incoming|] == incoming;
    return Ok((merged, round));
  }

  lemma NothingMerged(existing: seq<Observation>)
    ensures Merged(existing, []) == existing
  {
  }

  lemma Repeats(incoming: seq<Observation>, k: nat)
    requires k < |incoming| && incoming[k].sourceId in IdsOf(incoming[..k])
    ensures !UniqueIds(incoming)
  {
    var i :| 0 <= i < |incoming[..k]| && incoming[..k][i].sourceId == incoming[k].sourceId;
    assert incoming[i].sourceId == incoming[k].sourceId;
  }

  lemma StillUnique(done: seq<Observation>, item: Observation)
    requires UniqueIds(done) && item.sourceId !in IdsOf(done)
    ensures UniqueIds(done + [item]) && IdsOf(done + [item]) == IdsOf(done) + {item.sourceId}
  {
    IdsGrow(done, item);
    assert forall i | 0 <= i < |done| :: done[i].sourceId in IdsOf(done);
  }

  /** One turn of the loop: what the round records of an item. */
  method RecordOne(existing: seq<Observation>, round: Round, item: Observation, ghost done: seq<Observation>)
      returns (next: Round)
    requires round == RoundOf(existing, done)
    ensures next == RoundOf(existing, done + [item])
  {
    RoundStep(existing, done, item);
    var p := PositionOf(existing, item.sourceId);
    next := round.(requested := round.requested + 1);
    if p.None? {
      return next.(added := round.added + [item]);
    }
    var previous := existing[p.value];
    if previous.digest != item.digest {
      return next.(superseded := round.superseded + [SupersessionOf(previous, item)]);
    }
    if !SameWindow(previous, item) {
      return next.(reframed := round.reframed + [ReframingOf(previous, item)]);
    }
    return next.(same := round.same + [item.sourceId]);
  }

  /** And where the item goes: at the end, in the place of what it replaces, or nowhere. */
  method PlaceOne(existing: seq<Observation>, merged: seq<Observation>, item: Observation, ghost done: seq<Observation>)
      returns (next: seq<Observation>)
    requires UniqueIds(existing) && item.sourceId !in IdsOf(done)
    requires merged == Merged(existing, done)
    ensures next == Merged(existing, done + [item])
  {
    MergedStep(existing, done, item);
    var p := PositionOf(existing, item.sourceId);
    if p.None? {
      return merged + [item];
    }
    var previous := existing[p.value];
    if previous.digest == item.digest && SameWindow(previous, item) {
      return merged;
    }
    FirstIsIts(existing, done, item);
    return merged[IndexOf(merged, previous) := item];
  }

  lemma AddedStep(existing: seq<Observation>, done: seq<Observation>, item: Observation)
    ensures RoundOf(existing, done + [item]).added
            == RoundOf(existing, done).added + if PositionOf(existing, item.sourceId).None? then [item] else []
  {
    RoundStep(existing, done, item);
  }

  lemma Regroup(a: seq<Observation>, b: seq<Observation>, c: seq<Observation>)
    ensures a + (b + c) == a + b + c
  {
  }

  lemma UpdateLeft(a: seq<Observation>, b: seq<Observation>, p: nat, item: Observation)
    requires p < |a|
    ensures a[p := item] + b == (a + b)[p := item]
  {
  }

  /** One more item changes at most one position, and only its own. */
  lemma MergedStep(existing: seq<Observation>, done: seq<Observation>, item: Observation)
    requires UniqueIds(existing) && item.sourceId !in IdsOf(done)
    ensures var before, after := Merged(existing, done), Merged(existing, done + [item]);
            var p := PositionOf(existing, item.sourceId);
            if p.None? then after == before + [item]
            else after == if KindOf(existing, item) == Unchanged then before else before[p.value := item]
  {
    CurrentsStep(existing, done, item);
    AddedStep(existing, done, item);
    var c, a := Currents(existing, done), RoundOf(existing, done).added;
    var p := PositionOf(existing, item.sourceId);
    if p.None? {
      Regroup(c, a, [item]);
    } else if KindOf(existing, item) == Unchanged {
      assert c[p.value := existing[p.value]] == c;
      assert a + [] == a;
    } else {
      UpdateLeft(c, a, p.value, item);
      assert a + [] == a;
    }
  }

  lemma FirstIsIts(existing: seq<Observation>, done: seq<Observation>, item: Observation)
    requires UniqueIds(existing) && item.sourceId !in IdsOf(done)
    requires PositionOf(existing, item.sourceId).Some?
    ensures var p := PositionOf(existing, item.sourceId).value;
            existing[p] in Merged(existing, done) && IndexOf(Merged(existing, done), existing[p]) == p
  {
    var p := PositionOf(existing, item.sourceId).value;
    var merged := Merged(existing, done);
    CurrentStep(existing[p], done, item);
    assert merged[p] == existing[p];
    forall i | 0 <= i < p ensures merged[i] != existing[p] {
      assert merged[i].sourceId == existing[i].sourceId;
    }
  }

  // ------------------------------------------------------------ what merging keeps

  lemma {:induction false} AddedAre(existing: seq<Observation>, incoming: seq<Observation>)
    requires UniqueIds(incoming)
    ensures var added := RoundOf(existing, incoming).added;
            && UniqueIds(added)
            && (forall i | 0 <= i < |added| ::
                  added[i] in incoming && added[i].sourceId !in IdsOf(existing))
  {
    if incoming != [] {
      var init := incoming[..|incoming| - 1];
      AddedAre(existing, init);
      var added := RoundOf(existing, init).added;
      forall i | 0 <= i < |added| ensures added[i].sourceId != incoming[|incoming| - 1].sourceId {
        var j :| 0 <= j < |init| && init[j] == added[i];
        assert incoming[j] == added[i];
      }
    }
  }

  /** The base stays a base: one snapshot, no source twice, and every held source in its place. */
  lemma MergeKeepsTheBase(snapshotId: string, existing: seq<Observation>, incoming: seq<Observation>)
    requires BaseOk(snapshotId, existing) && OneSnapshot(snapshotId, incoming) && UniqueIds(incoming)
    ensures BaseOk(snapshotId, Merged(existing, incoming))
    ensures |existing| <= |Merged(existing, incoming)|
    ensures forall i | 0 <= i < |existing| ::
              Merged(existing, incoming)[i].sourceId == existing[i].sourceId
  {
    AddedAre(existing, incoming);
    var merged := Merged(existing, incoming);
    forall i, j | 0 <= i < j < |merged| ensures merged[i].sourceId != merged[j].sourceId {
      if i < |existing| {
        assert merged[i].sourceId == existing[i].sourceId;
        assert existing[i].sourceId in IdsOf(existing);
      }
    }
  }

  ghost predicate NoneOf(existing: seq<Observation>, incoming: seq<Observation>, kind: Kind) {
    forall i | 0 <= i < |incoming| :: KindOf(existing, incoming[i]) != kind
  }

  function CountOf(existing: seq<Observation>, incoming: seq<Observation>, kind: Kind): nat {
    if incoming == [] then 0
    else CountOf(existing, incoming[..|incoming| - 1], kind)
         + if KindOf(existing, incoming[|incoming| - 1]) == kind then 1 else 0
  }

  lemma {:induction false} NoneIsZero(existing: seq<Observation>, incoming: seq<Observation>, kind: Kind)
    ensures CountOf(existing, incoming, kind) == 0 <==> NoneOf(existing, incoming, kind)
  {
    if incoming != [] {
      NoneIsZero(existing, incoming[..|incoming| - 1], kind);
    }
  }

  lemma {:induction false} RoundCounts(existing: seq<Observation>, incoming: seq<Observation>)
    ensures var r := RoundOf(existing, incoming);
            && |r.added| == CountOf(existing, incoming, Added)
            && |r.superseded| == CountOf(existing, incoming, Superseded)
            && |r.reframed| == CountOf(existing, incoming, Reframed)
            && |r.same| == CountOf(existing, incoming, Unchanged)
            && |r.added| + |r.superseded| + |r.reframed| + |r.same| == |incoming|
  {
    if incoming != [] {
      RoundCounts(existing, incoming[..|incoming| - 1]);
    }
  }

  /** Each item of an answer is counted once, under its own kind. */
  lemma KindsPartition(existing: seq<Observation>, incoming: seq<Observation>)
    ensures var r := RoundOf(existing, incoming);
            && |r.added| + |r.superseded| + |r.reframed| + |r.same| == |incoming|
            && (r.added == [] <==> NoneOf(existing, incoming, Added))
            && (r.superseded == [] <==> NoneOf(existing, incoming, Superseded))
            && (r.reframed == [] <==> NoneOf(existing, incoming, Reframed))
  {
    RoundCounts(existing, incoming);
    NoneIsZero(existing, incoming, Added);
    NoneIsZero(existing, incoming, Superseded);
    NoneIsZero(existing, incoming, Reframed);
  }

  lemma PositionIs(obs: seq<Observation>, i: nat)
    requires UniqueIds(obs) && i < |obs|
    ensures PositionOf(obs, obs[i].sourceId) == Some(i)
  {
    assert obs[i].sourceId in IdsOf(obs);
  }

  /** A round moved the run exactly when what the run holds is different. */
  lemma NothingNewIff(existing: seq<Observation>, incoming: seq<Observation>)
    requires UniqueIds(existing) && UniqueIds(incoming)
    ensures !RoundOf(existing, incoming).HasNewMaterial() <==> Merged(existing, incoming) == existing
  {
    var merged := Merged(existing, incoming);
    KindsPartition(existing, incoming);
    if merged == existing {
      assert |merged| == |existing| + |RoundOf(existing, incoming).added|;
      forall k | 0 <= k < |incoming| ensures KindOf(existing, incoming[k]) == Unchanged {
        PositionIs(incoming, k);
        var p := PositionOf(existing, incoming[k].sourceId).value;
        assert merged[p] == Current(existing[p], incoming);
      }
    }
    if !RoundOf(existing, incoming).HasNewMaterial() {
      forall i | 0 <= i < |existing| ensures Current(existing[i], incoming) == existing[i] {
        var p := PositionOf(incoming, existing[i].sourceId);
        PositionIs(existing, i);
        if p.Some? { assert KindOf(existing, incoming[p.value]) == Unchanged; }
      }
    }
  }

  // ------------------------------------------------------ the controller's signature

  datatype Mark = Mark(sourceId: SourceId, digest: Digest, lineStart: int, lineEnd: int)

  function MarkOf(o: Observation): Mark {
    Mark(o.sourceId, o.digest, o.lineStart, o.lineEnd)
  }

  /** What a plan is to two passes that compare what they worked from. */
  datatype PlanMark = PlanMark(snapshotId: string, topic: string, patterns: seq<string>)

  /** The material signature: the evidence, and the review the plan asks for, if any. */
  datatype Material = Material(evidence: set<Mark>, plan: Option<PlanMark>)

  function MaterialOf(obs: seq<Observation>, plan: Option<PlanMark>): Material {
    Material(Signature(obs), plan)
  }

  /** The evidence half of the material signature; sorting makes it a set when ids are unique. */
  function Signature(obs: seq<Observation>): set<Mark> {
    set i | 0 <= i < |obs| :: MarkOf(obs[i])
  }

  predicate Honest(o: Observation) {
    o.digest.Sha? && IsHonest(o, o.digest.content)
  }

  predicate AllHonest(obs: seq<Observation>) {
    forall i | 0 <= i < |obs| :: Honest(obs[i])
  }

  lemma SameMark(existing: seq<Observation>, merged: seq<Observation>, i: nat)
    requires UniqueIds(existing) && Signature(merged) == Signature(existing)
    requires i < |merged|
    ensures exists p | 0 <= p < |existing| :: MarkOf(existing[p]) == MarkOf(merged[i])
  {
    assert MarkOf(merged[i]) in Signature(merged);
  }

  /**
   For observations that say what is at their own lines, the material two passes compare is
   unchanged exactly when the round between them reported no new material and the plan is the same.
   */
  lemma SignatureIff(
      existing: seq<Observation>, incoming: seq<Observation>, before: Option<PlanMark>, after: Option<PlanMark>)
    requires UniqueIds(existing) && UniqueIds(incoming)
    requires AllHonest(existing) && AllHonest(incoming)
    ensures MaterialOf(Merged(existing, incoming), after) == MaterialOf(existing, before)
            <==> !RoundOf(existing, incoming).HasNewMaterial() && after == before
  {
    EvidenceIff(existing, incoming);
  }

  lemma EvidenceIff(existing: seq<Observation>, incoming: seq<Observation>)
    requires UniqueIds(existing) && UniqueIds(incoming)
    requires AllHonest(existing) && AllHonest(incoming)
    ensures Signature(Merged(existing, incoming)) == Signature(existing)
            <==> !RoundOf(existing, incoming).HasNewMaterial()
  {
    NothingNewIff(existing, incoming);
    var merged := Merged(existing, incoming);
    if Signature(merged) == Signature(existing) {
      AddedAre(existing, incoming);
      forall i | 0 <= i < |existing| ensures merged[i] == existing[i] {
        SameMark(existing, merged, i);
        var p :| 0 <= p < |existing| && MarkOf(existing[p]) == MarkOf(merged[i]);
        assert merged[i].sourceId == existing[i].sourceId;
        PositionIs(existing, i);
        PositionIs(existing, p);
      }
      var added := RoundOf(existing, incoming).added;
      assert added == [] by {
        if added != [] {
          assert merged[|existing|] == added[0] && added[0].sourceId !in IdsOf(existing);
          SameMark(existing, merged, |existing|);
        }
      }
      assert merged == existing;
    }
  }
}
