/**
 Three readers of one history: the validator every report goes through, the call states
 and totals of the inspection report, and the per-kind counters of the metrics.
 */
module Inspect {
  import opened Wrappers
  import opened EventLogs

  datatype InspectError =
    | BadEnvelope | BadEventId | BadStart | BadStop | BadShape
    | ForeignCallId | DuplicateStart | NoSuchCall | SecondOutcome

  // ------------------------------------------------------ what a history must be

  predicate InPosition(h: History, runId: string) {
    forall i | 0 <= i < |h| ::
      h[i].runId == runId && h[i].sequence == i && h[i].eventId == IdOf(runId, i)
  }

  /** One initial start; at most one stop, and it is last. */
  predicate FramedByStartAndStop(h: History) {
    h != [] && h[0].body.RunStarted?
    && (forall i | 0 < i < |h| :: !h[i].body.RunStarted?)
    && (forall i | 0 <= i < |h| - 1 :: !h[i].body.RunStopped?)
  }

  /** A call's id names its start event. */
  predicate StartsNameThemselves(h: History, runId: string) {
    forall i | 0 <= i < |h| && h[i].body.CallStarted? :: h[i].body.callId == IdOf(runId, i)
  }

  predicate StartedBefore(h: History, j: int) {
    0 <= j < |h| && h[j].body.CallFinished?
    && exists i | 0 <= i < j :: h[i].body.CallStarted? && h[i].body.callId == h[j].body.callId
  }

  predicate EveryFinishHasItsStart(h: History) {
    forall j | 0 <= j < |h| && h[j].body.CallFinished? :: StartedBefore(h, j)
  }

  predicate NoSecondOutcome(h: History) {
    forall i, j | 0 <= i < j < |h| && h[i].body.CallFinished? && h[j].body.CallFinished? ::
      h[i].body.callId != h[j].body.callId
  }

  predicate ValidHistory(h: History, runId: string) {
    && InPosition(h, runId)
    && FramedByStartAndStop(h)
    && StartsNameThemselves(h, runId)
    && EveryFinishHasItsStart(h)
    && NoSecondOutcome(h)
    && forall i | 0 <= i < |h| :: WellShaped(h[i].body)
  }

  // ------------------------------------------------------------- the validator

  method ValidateHistory(records: History, runId: string) returns (r: Outcome<InspectError>)
    ensures r.Returned? <==> runId != "" && ValidHistory(records, runId)
  {
    var envelope := EventLog.Open(runId, records);
    if envelope.Err? {
      return Raised(BadEnvelope);
    }
    if exists i | 0 <= i < |records| :: records[i].eventId != IdOf(runId, i) {
      return Raised(BadEventId);
    }
    if !(records != [] && records[0].body.RunStarted?)
       || exists i | 0 < i < |records| :: records[i].body.RunStarted? {
      return Raised(BadStart);
    }
    if exists i | 0 <= i < |records| - 1 :: records[i].body.RunStopped? {
      return Raised(BadStop);
    }
    r := ValidateCalls(records, runId);
    GrownIsValid(runId, records);
  }

  /** The pass over the events, for a history that is in position and framed. */
  method ValidateCalls(records: History, runId: string) returns (r: Outcome<InspectError>)
    requires InPosition(records, runId) && FramedByStartAndStop(records)
    ensures r.Returned? <==> Accepts(runId, records)
  {
    var started: set<string>, finished: set<string> := {}, {};
    for n := 0 to |records|
      invariant Accepts(runId, records[..n])
      invariant started == Started(records[..n]) && finished == Finished(records[..n])
    {
      var body := records[n].body;
      OneMore(runId, records, n);
      if body.CallStarted? {
        NextIdIsNew(runId, records[..n]);
        if body.callId != IdOf(runId, n) {
          return Raised(ForeignCallId);
        }
        if body.callId in started {
          return Raised(DuplicateStart);
        }
        started := started + {body.callId};
      } else if body.CallFinished? {
        if body.callId !in started {
          return Raised(NoSuchCall);
        }
        if body.callId in finished {
          return Raised(SecondOutcome);
        }
        finished := finished + {body.callId};
      } else if !WellShaped(body) {
        return Raised(BadShape);
      }
    }
    assert records[..|records|] == records;
    return Returned;
  }

  lemma OneMore(runId: string, h: History, n: nat)
    requires InPosition(h, runId) && FramedByStartAndStop(h) && n < |h|
    requires Accepts(runId, h[..n])
    ensures Accepts(runId, h[..n + 1]) <==> MayFollow(runId, h[..n], h[n].body)
    ensures Accepts(runId, h) ==> MayFollow(runId, h[..n], h[n].body)
    ensures !HasStop(h[..n]) && (h[..n] == [] <==> h[n].body.RunStarted?)
    ensures Started(h[..n + 1]) == Started(h[..n]) + (if h[n].body.CallStarted? then {h[n].body.callId} else {})
    ensures Finished(h[..n + 1]) == Finished(h[..n]) + (if h[n].body.CallFinished? then {h[n].body.callId} else {})
  {
    assert h[..n + 1][..n] == h[..n];
    StopAt(h[..n]);
    if Accepts(runId, h) { PrefixAccepted(runId, h, n + 1); }
  }

  /** What may be grown one event at a time is exactly what the validator accepts. */
  lemma {:induction false} GrownIsValid(runId: string, h: History)
    ensures h != [] && Accepts(runId, h) <==> ValidHistory(h, runId)
    decreases |h|
  {
    if h != [] {
      var init, body := h[..|h| - 1], h[|h| - 1].body;
      if init != [] { GrownIsValid(runId, init); }
      LastOutcomeIsFirst(h);
      LastOutcomeHasItsStart(h);
      LastPlaced(h, runId);
    }
  }

  lemma StartedAt(h: History, id: string)
    ensures id in Started(h) <==> exists i | 0 <= i < |h| :: h[i].body.CallStarted? && h[i].body.callId == id
    ensures id in Finished(h) <==> exists i | 0 <= i < |h| :: h[i].body.CallFinished? && h[i].body.callId == id
  {
    StartedIff(h, id);
    FinishedIff(h, id);
  }

  lemma {:induction false} StopAt(h: History)
    ensures HasStop(h) <==> exists i | 0 <= i < |h| :: h[i].body.RunStopped?
  {
    if h != [] {
      StopAt(h[..|h| - 1]);
    }
  }

  lemma LastOutcomeIsFirst(h: History)
    requires h != []
    ensures var init, body := h[..|h| - 1], h[|h| - 1].body;
            NoSecondOutcome(h) <==> NoSecondOutcome(init) && (body.CallFinished? ==> body.callId !in Finished(init))
  {
    var init, last := h[..|h| - 1], |h| - 1;
    var body := h[last].body;
    if body.CallFinished? { StartedAt(init, body.callId); }
    assert forall i | 0 <= i < last :: init[i] == h[i];
    if NoSecondOutcome(h) {
      assert forall i | 0 <= i < last && h[i].body.CallFinished? && body.CallFinished? ::
          h[i].body.callId != h[last].body.callId;
    }
  }

  lemma LastOutcomeHasItsStart(h: History)
    requires h != []
    ensures var init, body := h[..|h| - 1], h[|h| - 1].body;
            EveryFinishHasItsStart(h)
            <==> EveryFinishHasItsStart(init) && (body.CallFinished? ==> body.callId in Started(init))
  {
    var init, body := h[..|h| - 1], h[|h| - 1].body;
    if body.CallFinished? { StartedAt(init, body.callId); }
    assert forall j | 0 <= j < |init| && init[j].body.CallFinished? :: StartedBefore(h, j) <==> StartedBefore(init, j);
    assert body.CallFinished? ==> (StartedBefore(h, |h| - 1) <==> body.callId in Started(init));
  }

  lemma LastPlaced(h: History, runId: string)
    requires h != []
    ensures var init, e := h[..|h| - 1], h[|h| - 1];
            && (InPosition(h, runId)
                <==> InPosition(init, runId)
                     && e.runId == runId && e.sequence == |init| && e.eventId == IdOf(runId, |init|))
            && (FramedByStartAndStop(h)
                <==> (init == [] || (FramedByStartAndStop(init) && !HasStop(init)))
                     && (init == [] <==> e.body.RunStarted?))
            && (StartsNameThemselves(h, runId)
                <==> StartsNameThemselves(init, runId)
                     && (e.body.CallStarted? ==> e.body.callId == IdOf(runId, |init|)))
  {
    var init, e := h[..|h| - 1], h[|h| - 1];
    assert forall i | 0 <= i < |init| :: init[i] == h[i];
    StopAt(init);
    assert h[|h| - 1] == e;
  }

  /** Whatever a crash leaves of a valid history, if anything, is a valid history. */
  lemma CrashPrefixIsValid(h: History, runId: string, k: nat)
    requires ValidHistory(h, runId) && 0 < k <= |h|
    ensures ValidHistory(h[..k], runId)
  {
    GrownIsValid(runId, h);
    PrefixAccepted(runId, h, k);
    GrownIsValid(runId, h[..k]);
  }

  // ------------------------------------------------------------- call states

  function NextStates(states: map<string, CallState>, body: Body): map<string, CallState> {
    match body
    case CallStarted(id, _, _) => if id in states then states else states[id := Unknown]
    case CallFinished(id, outcome) => if id in states then states[id := Known(outcome)] else states
    case _ => states
  }

  function States(h: History): map<string, CallState> {
    if h == [] then map[] else NextStates(States(h[..|h| - 1]), h[|h| - 1].body)
  }

  method CallStates(events: History) returns (started: map<string, CallState>)
    ensures started == States(events)
  {
    started := map[];
    for n := 0 to |events|
      invariant started == States(events[..n])
    {
      var body := events[n].body;
      assert events[..n + 1][..n] == events[..n];
      if body.CallStarted? {
        if body.callId !in started {
          started := started[body.callId := Unknown];
        }
      } else if body.CallFinished? && body.callId in started {
        started := started[body.callId := Known(body.outcome)];
      }
    }
    assert events[..|events|] == events;
  }

  /** An outcome was logged for a call that had begun. */
  predicate HasEnded(h: History, id: string) {
    exists j | 0 <= j < |h| && h[j].body.CallFinished? :: h[j].body.callId == id && StartedBefore(h, j)
  }

  /**
   The calls that began and did not end, in any history; an outcome that came before its start
   does not count. In a valid history they are the started calls less the finished ones.
   */
  method UnfinishedCalls(events: History) returns (calls: set<string>)
    ensures forall id :: id in calls <==> id in Started(events) && !HasEnded(events, id)
    ensures forall runId | ValidHistory(events, runId) :: calls == Started(events) - Finished(events)
  {
    var states := CallStates(events);
    calls := set id | id in states && states[id] == Unknown;
    forall id ensures id in calls <==> id in Started(events) && !HasEnded(events, id) {
      StateOf(events, id);
    }
    forall runId | ValidHistory(events, runId) ensures calls == Started(events) - Finished(events) {
      GrownIsValid(runId, events);
      StatesMean(runId, events);
    }
  }

  lemma HasEndedLast(h: History, id: string)
    requires h != []
    ensures var init, body := h[..|h| - 1], h[|h| - 1].body;
            HasEnded(h, id)
            <==> HasEnded(init, id) || (body.CallFinished? && body.callId == id && id in Started(init))
  {
    var init, body := h[..|h| - 1], h[|h| - 1].body;
    if body.CallFinished? { StartedAt(init, body.callId); }
    assert forall j | 0 <= j < |init| && init[j].body.CallFinished? :: StartedBefore(h, j) <==> StartedBefore(init, j);
    assert body.CallFinished? ==> (StartedBefore(h, |h| - 1) <==> body.callId in Started(init));
  }

  /** Whatever the history, a call is listed when it began and unknown until it ended. */
  lemma {:induction false} StateOf(h: History, id: string)
    ensures id in States(h) <==> id in Started(h)
    ensures id in States(h) ==> (States(h)[id] == Unknown <==> !HasEnded(h, id))
  {
    if h != [] {
      StateOf(h[..|h| - 1], id);
      HasEndedLast(h, id);
      NotEndedBeforeItBegan(h[..|h| - 1], id);
    }
  }

  lemma NotEndedBeforeItBegan(h: History, id: string)
    ensures HasEnded(h, id) ==> id in Started(h)
  {
    StartedAt(h, id);
  }

  /**
   What the call states attest, for a valid history: a call is listed exactly when it
   began, it is unknown exactly when no outcome was logged, and its state is the logged one.
   */
  lemma {:induction false} StatesMean(runId: string, h: History)
    requires Accepts(runId, h)
    ensures States(h).Keys == Started(h)
    ensures forall id | id in States(h) :: States(h)[id] == Unknown <==> id !in Finished(h)
    ensures forall e | e in h && e.body.CallFinished? ::
              e.body.callId in States(h) && States(h)[e.body.callId] == Known(e.body.outcome)
  {
    if h != [] {
      var init, e := h[..|h| - 1], h[|h| - 1];
      StatesMean(runId, init);
      NextIdIsNew(runId, init);
      assert h == init + [e];
      if e.body.CallFinished? {
        FinishedIff(init, e.body.callId);
      }
    }
  }

  // ------------------------------------------------------------------ totals

  datatype Totals = Totals(total: nat, ok: nat, denied: nat, failed: nat, unknown: nat)

  function WithState(states: map<string, CallState>, s: CallState): set<string> {
    set id | id in states && states[id] == s
  }

  /** How many calls a history says began. */
  function StartsLogged(h: History): nat {
    if h == [] then 0
    else StartsLogged(h[..|h| - 1]) + if h[|h| - 1].body.CallStarted? then 1 else 0
  }

  /** How often it logged this outcome. */
  function OutcomesLogged(h: History, outcome: CallOutcome): nat {
    if h == [] then 0
    else
      var body := h[|h| - 1].body;
      OutcomesLogged(h[..|h| - 1], outcome) + if body.CallFinished? && body.outcome == outcome then 1 else 0
  }

  lemma MoreWithState(states: map<string, CallState>, id: string, outcome: CallOutcome, s: CallOutcome)
    requires id in states && states[id] == Unknown
    ensures |WithState(states[id := Known(outcome)], Known(s))|
            == |WithState(states, Known(s))| + if outcome == s then 1 else 0
  {
    var before, after := WithState(states, Known(s)), WithState(states[id := Known(outcome)], Known(s));
    if outcome == s {
      OneMoreMember(before, after, id);
    } else {
      assert after == before;
    }
  }

  /** In a valid history the states count the records: one call a start, one state an outcome. */
  lemma {:induction false} StatesCountRecords(runId: string, h: History, outcome: CallOutcome)
    requires Accepts(runId, h)
    ensures |States(h)| == StartsLogged(h)
    ensures |WithState(States(h), Known(outcome))| == OutcomesLogged(h, outcome)
  {
    if h == [] {
      assert States(h) == map[];
    } else {
      var init, body := h[..|h| - 1], h[|h| - 1].body;
      StatesCountRecords(runId, init, outcome);
      StatesMean(runId, init);
      NextIdIsNew(runId, init);
      StepCountsRecords(States(init), body, outcome);
    }
  }

  lemma StepCountsRecords(states: map<string, CallState>, body: Body, outcome: CallOutcome)
    requires body.CallStarted? ==> body.callId !in states
    requires body.CallFinished? ==> body.callId in states && states[body.callId] == Unknown
    ensures |NextStates(states, body)| == |states| + (if body.CallStarted? then 1 else 0)
    ensures |WithState(NextStates(states, body), Known(outcome))|
            == |WithState(states, Known(outcome))|
               + (if body.CallFinished? && body.outcome == outcome then 1 else 0)
  {
    match body {
      case CallStarted(id, _, _) =>
        assert WithState(states[id := Unknown], Known(outcome)) == WithState(states, Known(outcome));
      case CallFinished(id, its) =>
        assert states[id := Known(its)].Keys == states.Keys;
        assert |states[id := Known(its)]| == |states[id := Known(its)].Keys|;
        MoreWithState(states, id, its, outcome);
      case _ =>
    }
  }

  /** What the totals of a valid history count: its starts, its outcomes, and what is left open. */
  ghost predicate CountTheLog(t: Totals, h: History) {
    && t.total == StartsLogged(h) && t.ok == OutcomesLogged(h, CallOk)
    && t.denied == OutcomesLogged(h, CallDenied) && t.failed == OutcomesLogged(h, CallFailed)
    && t.unknown == |Started(h) - Finished(h)|
  }

  method InspectTotals(events: History) returns (t: Totals)
    ensures forall runId | ValidHistory(events, runId) :: CountTheLog(t, events)
    ensures var states := States(events);
            t == Totals(|states|, |WithState(states, Known(CallOk))|, |WithState(states, Known(CallDenied))|,
                        |WithState(states, Known(CallFailed))|, |WithState(states, Unknown)|)
  {
    var states := CallStates(events);
    t := Totals(|states|, |WithState(states, Known(CallOk))|, |WithState(states, Known(CallDenied))|,
                |WithState(states, Known(CallFailed))|, |WithState(states, Unknown)|);
    forall runId | ValidHistory(events, runId) ensures CountTheLog(t, events) {
      GrownIsValid(runId, events);
      forall outcome ensures |WithState(states, Known(outcome))| == OutcomesLogged(events, outcome) {
        StatesCountRecords(runId, events, outcome);
      }
      StatesCountRecords(runId, events, CallOk);
      StatesMean(runId, events);
      assert WithState(states, Unknown) == Started(events) - Finished(events);
    }
  }

  // ------------------------------------------------------------------ metrics

  datatype Counters = Counters(ok: int, denied: int, failed: int, unfinished: int) {
    function Of(s: CallState): int {
      match s
      case Unknown => unfinished
      case Known(CallOk) => ok
      case Known(CallDenied) => denied
      case Known(CallFailed) => failed
    }

    function Add(outcome: CallOutcome): Counters {
      match outcome
      case CallOk => this.(ok := ok + 1)
      case CallDenied => this.(denied := denied + 1)
      case CallFailed => this.(failed := failed + 1)
    }
  }

  const NONE_YET := Counters(0, 0, 0, 0)

  datatype Tally = Tally(calls: map<CallKind, Counters>, kinds: map<string, CallKind>) {
    function For(kind: CallKind): Counters {
      if kind in calls then calls[kind] else NONE_YET
    }
  }

  function NextTally(t: Tally, body: Body): Tally {
    match body
    case CallStarted(id, kind, _) =>
      var c := t.For(kind);
      Tally(t.calls[kind := c.(unfinished := c.unfinished + 1)], t.kinds[id := kind])
    case CallFinished(id, outcome) =>
      if id !in t.kinds then t
      else
        var kind := t.kinds[id];
        var c := t.For(kind);
        t.(calls := t.calls[kind := c.(unfinished := c.unfinished - 1).Add(outcome)])
    case _ => t
  }

  function Tallied(h: History): Tally {
    if h == [] then Tally(map[], map[]) else NextTally(Tallied(h[..|h| - 1]), h[|h| - 1].body)
  }

  method RunMetrics(records: History) returns (calls: map<CallKind, Counters>)
    ensures calls == Tallied(records).calls
  {
    calls := map[];
    var startedCalls: map<string, CallKind> := map[];
    for n := 0 to |records|
      invariant Tally(calls, startedCalls) == Tallied(records[..n])
    {
      var body := records[n].body;
      assert records[..n + 1][..n] == records[..n];
      if body.CallStarted? {
        startedCalls := startedCalls[body.callId := body.kind];
        if body.kind !in calls {
          calls := calls[body.kind := NONE_YET];
        }
        var c := calls[body.kind];
        calls := calls[body.kind := c.(unfinished := c.unfinished + 1)];
      } else if body.CallFinished? && body.callId in startedCalls {
        var kind := startedCalls[body.callId];
        KindIsCounted(records[..n], body.callId);
        var c := calls[kind];
        calls := calls[kind := c.(unfinished := c.unfinished - 1).Add(body.outcome)];
      }
    }
    assert records[..|records|] == records;
  }

  lemma {:induction false} KindIsCounted(h: History, id: string)
    requires id in Tallied(h).kinds
    ensures Tallied(h).kinds[id] in Tallied(h).calls
  {
    if h != [] && id in Tallied(h[..|h| - 1]).kinds {
      KindIsCounted(h[..|h| - 1], id);
    }
  }

  // ------------------------------------------------------- the readers agree

  /** The calls of one kind that are in one state. */
  function Bucket(states: map<string, CallState>, kinds: map<string, CallKind>,
                  kind: CallKind, s: CallState): set<string> {
    set id | id in states && id in kinds && kinds[id] == kind && states[id] == s
  }

  lemma OneMoreMember(a: set<string>, b: set<string>, id: string)
    requires id !in a && forall x :: x in b <==> x in a || x == id
    ensures |b| == |a| + 1
  {
    assert b == a + {id};
  }

  lemma BucketOnStart(
      states: map<string, CallState>, kinds: map<string, CallKind>,
      id: string, its: CallKind, kind: CallKind, s: CallState)
    requires id !in states && states.Keys == kinds.Keys
    ensures |Bucket(states[id := Unknown], kinds[id := its], kind, s)|
            == |Bucket(states, kinds, kind, s)| + if its == kind && s == Unknown then 1 else 0
  {
    var before := Bucket(states, kinds, kind, s);
    var after := Bucket(states[id := Unknown], kinds[id := its], kind, s);
    if its == kind && s == Unknown {
      OneMoreMember(before, after, id);
    } else {
      assert after == before;
    }
  }

  lemma BucketOnFinish(
      states: map<string, CallState>, kinds: map<string, CallKind>,
      id: string, outcome: CallOutcome, kind: CallKind, s: CallState)
    requires id in states && states[id] == Unknown && states.Keys == kinds.Keys
    ensures |Bucket(states[id := Known(outcome)], kinds, kind, s)|
            == |Bucket(states, kinds, kind, s)|
               + if kinds[id] != kind then 0
                 else if s == Unknown then -1
                 else if s == Known(outcome) then 1 else 0
  {
    var before := Bucket(states, kinds, kind, s);
    var after := Bucket(states[id := Known(outcome)], kinds, kind, s);
    if kinds[id] == kind && s == Unknown {
      OneMoreMember(after, before, id);
    } else if kinds[id] == kind && s == Known(outcome) {
      OneMoreMember(before, after, id);
    } else {
      assert after == before;
    }
  }

  lemma StepCounts(t: Tally, states: map<string, CallState>, body: Body, kind: CallKind, s: CallState)
    requires t.kinds.Keys == states.Keys
    requires t.For(kind).Of(s) == |Bucket(states, t.kinds, kind, s)|
    requires body.CallStarted? ==> body.callId !in states
    requires body.CallFinished? ==> body.callId in states && states[body.callId] == Unknown
    ensures var t', states' := NextTally(t, body), NextStates(states, body);
            t'.kinds.Keys == states'.Keys
            && t'.For(kind).Of(s) == |Bucket(states', t'.kinds, kind, s)|
  {
    match body {
      case CallStarted(id, its, _) => BucketOnStart(states, t.kinds, id, its, kind, s);
      case CallFinished(id, outcome) =>
        BucketOnFinish(states, t.kinds, id, outcome, kind, s);
        if t.kinds[id] == kind {
          match outcome { case CallOk => case CallDenied => case CallFailed => }
        }
      case _ =>
    }
  }

  /** Every counter of the metrics is the number of calls of that kind in that state. */
  lemma {:induction false} CountersCountCalls(runId: string, h: History, kind: CallKind, s: CallState)
    requires Accepts(runId, h)
    ensures Tallied(h).kinds.Keys == States(h).Keys
    ensures Tallied(h).For(kind).Of(s) == |Bucket(States(h), Tallied(h).kinds, kind, s)|
  {
    if h == [] {
      assert Bucket(States(h), Tallied(h).kinds, kind, s) == {};
    } else {
      var init := h[..|h| - 1];
      CountersCountCalls(runId, init, kind, s);
      StatesMean(runId, init);
      NextIdIsNew(runId, init);
      StepCounts(Tallied(init), States(init), h[|h| - 1].body, kind, s);
    }
  }

  /** The kinds split the calls in one state. */
  lemma KindsSplit(states: map<string, CallState>, kinds: map<string, CallKind>, s: CallState)
    requires states.Keys == kinds.Keys
    ensures |WithState(states, s)|
            == |Bucket(states, kinds, Observe, s)| + |Bucket(states, kinds, ModelCall, s)|
               + |Bucket(states, kinds, ToolCall, s)| + |Bucket(states, kinds, MemoryRead, s)|
               + |Bucket(states, kinds, MemoryWrite, s)|
  {
    var o, m := Bucket(states, kinds, Observe, s), Bucket(states, kinds, ModelCall, s);
    var t := Bucket(states, kinds, ToolCall, s);
    var r, w := Bucket(states, kinds, MemoryRead, s), Bucket(states, kinds, MemoryWrite, s);
    forall id | id in WithState(states, s) ensures id in o + m + t + r + w {
      match kinds[id] { case Observe => case ModelCall => case ToolCall => case MemoryRead => case MemoryWrite => }
    }
    assert WithState(states, s) == o + m + t + r + w;
    assert |o + m| == |o| + |m| && |o + m + t| == |o + m| + |t|;
    assert |o + m + t + r| == |o + m + t| + |r|;
    assert |o + m + t + r + w| == |o + m + t + r| + |w|;
  }

  /**
   The readers agree on every valid history: no counter of the metrics is negative, and
   for each state the counters of the five kinds add up to the total of the report.
   */
  lemma ReadersAgree(h: History, runId: string, s: CallState)
    requires ValidHistory(h, runId)
    ensures forall kind :: Tallied(h).For(kind).Of(s) >= 0
    ensures var t := Tallied(h);
            t.For(Observe).Of(s) + t.For(ModelCall).Of(s) + t.For(ToolCall).Of(s)
            + t.For(MemoryRead).Of(s) + t.For(MemoryWrite).Of(s) == |WithState(States(h), s)|
  {
    GrownIsValid(runId, h);
    forall kind ensures Tallied(h).For(kind).Of(s) == |Bucket(States(h), Tallied(h).kinds, kind, s)| {
      CountersCountCalls(runId, h, kind, s);
    }
    CountersCountCalls(runId, h, Observe, s);
    KindsSplit(States(h), Tallied(h).kinds, s);
  }

  /** Every call a history names is in exactly one state. */
  lemma TotalsAddUp(h: History)
    ensures var n := States(h);
            |n| == |WithState(n, Unknown)| + |WithState(n, Known(CallOk))|
                   + |WithState(n, Known(CallDenied))| + |WithState(n, Known(CallFailed))|
  {
    var n := States(h);
    var u, o := WithState(n, Unknown), WithState(n, Known(CallOk));
    var d, f := WithState(n, Known(CallDenied)), WithState(n, Known(CallFailed));
    forall id | id in n ensures id in u + o + d + f {
      match n[id] {
        case Unknown =>
        case Known(outcome) => match outcome { case CallOk => case CallDenied => case CallFailed => }
      }
    }
    assert n.Keys == u + o + d + f;
    assert |u + o| == |u| + |o| && |u + o + d| == |u + o| + |d|;
    assert |u + o + d + f| == |u + o + d| + |f|;
  }

  /** Validity is needed: a second outcome drives the metrics below zero. */
  lemma SecondOutcomeGoesNegative(start: Event, finish: Event)
    requires start.body == CallStarted("r:1", ToolCall, true)
    requires finish.body == CallFinished("r:1", CallOk)
    ensures Tallied([start, finish, finish]).For(ToolCall).unfinished == -1
    ensures forall runId :: !ValidHistory([start, finish, finish], runId)
  {
    var h := [start, finish, finish];
    assert h[..2] == [start, finish] && [start, finish][..1] == [start] && [start][..0] == [];
    assert Tallied([start]).For(ToolCall) == Counters(0, 0, 0, 1);
    assert Tallied([start, finish]).For(ToolCall) == Counters(1, 0, 0, 0);
    assert !NoSecondOutcome(h) by { assert h[1].body.callId == h[2].body.callId; }
  }
}
