/**
 The append-only record of what a run did.

 `Accepts` says what a history may look like one event at a time, which is how the log
 grows; `Inspect` states the same thing about a whole history and checks it the way a
 reader does.
 */
module EventLogs {
  import opened Wrappers
  import opened Lines
  import opened Numerals
  import opened Machine

  datatype CallKind = Observe | ModelCall | ToolCall | MemoryRead | MemoryWrite
  datatype CallOutcome = CallOk | CallDenied | CallFailed
  datatype CallState = Unknown | Known(outcome: CallOutcome)
  datatype Decision = Requested | Granted | Refused | Consumed | Rejected

  /** One source in a logged round: its id, its path, and which text or lines came in. */
  datatype SourceItem = SourceItem(sourceId: string, path: Option<string>, mark: string)

  /** The digests a run is bound to, so a resume can be compared with its start. */
  datatype Binding = Binding(
    task: string, maxIterations: nat, observations: string,
    snapshot: Option<string>, evidence: Option<string>)

  datatype Body =
    | RunStarted(binding: Binding)
    | Interrupted(unfinished: set<string>)
    | Resumed
    | PlanSelected(route: Option<string>)
    | CallStarted(callId: string, kind: CallKind, idempotent: bool)
    | CallFinished(callId: string, outcome: CallOutcome)
    | ObservationRecorded(
        added: seq<SourceItem>, superseded: seq<SourceItem>, reframed: seq<SourceItem>,
        same: seq<string>)
    | DecisionRecorded(passed: bool, gaps: seq<string>, unmet: seq<string>)
    | ApprovalRecorded(decision: Decision)
    | WriteVerified
    | RunStopped(reason: string, stopClass: string, status: string)

  datatype Event = Event(
    runId: string, eventId: string, sequence: int, iteration: nat, body: Body)

  datatype LogError =
    | EmptyRunId | MixedRunIds | NotContiguous
    | NeverStarted(callId: string) | AlreadyFinished(callId: string)

  type History = seq<Event>

  function IdOf(runId: string, n: nat): string {
    runId + ":" + Decimal(n)
  }

  lemma IdsDiffer(runId: string, m: nat, n: nat)
    requires IdOf(runId, m) == IdOf(runId, n)
    ensures m == n
  {
    var prefix := runId + ":";
    assert Decimal(m) == IdOf(runId, m)[|prefix|..] == IdOf(runId, n)[|prefix|..] == Decimal(n);
    Injective(m, n);
  }

  // ------------------------------------------------------- a history, by growth

  function Started(h: History): set<string> {
    if h == [] then {}
    else Started(h[..|h| - 1])
         + (if h[|h| - 1].body.CallStarted? then {h[|h| - 1].body.callId} else {})
  }

  function Finished(h: History): set<string> {
    if h == [] then {}
    else Finished(h[..|h| - 1])
         + (if h[|h| - 1].body.CallFinished? then {h[|h| - 1].body.callId} else {})
  }

  predicate HasStop(h: History) {
    h != [] && (h[|h| - 1].body.RunStopped? || HasStop(h[..|h| - 1]))
  }

  predicate TextItems(items: seq<SourceItem>) {
    forall i | 0 <= i < |items| ::
      !Blank(items[i].sourceId) && (items[i].path.Some? ==> !Blank(items[i].path.value))
  }

  predicate TextList(items: seq<string>) {
    forall i | 0 <= i < |items| :: !Blank(items[i])
  }

  /** The payload fields a report is built from hold text. */
  predicate WellShaped(body: Body) {
    match body
    case ObservationRecorded(added, superseded, _, same) =>
      TextItems(added) && TextItems(superseded) && TextList(same)
    case DecisionRecorded(_, gaps, unmet) => TextList(gaps) && TextList(unmet)
    case PlanSelected(route) => route.Some? ==> !Blank(route.value)
    case RunStopped(reason, stopClass, status) =>
      !Blank(reason) && !Blank(stopClass) && !Blank(status)
    case _ => true
  }

  /** What the cross-event rules ask of the next event. */
  predicate MayFollow(runId: string, h: History, body: Body) {
    !HasStop(h) && WellShaped(body)
    && (h == [] <==> body.RunStarted?)
    && (body.CallStarted? ==> body.callId == IdOf(runId, |h|))
    && (body.CallFinished? ==> body.callId in Started(h) && body.callId !in Finished(h))
  }

  predicate Accepts(runId: string, h: History) {
    h == []
    || (Accepts(runId, h[..|h| - 1])
        && var e := h[|h| - 1];
        e.runId == runId && e.sequence == |h| - 1 && e.eventId == IdOf(runId, |h| - 1)
        && MayFollow(runId, h[..|h| - 1], e.body))
  }

  function Entry(runId: string, h: History, iteration: nat, body: Body): Event {
    Event(runId, IdOf(runId, |h|), |h|, iteration, body)
  }

  /** Appending what the rules allow keeps a history acceptable, and nothing else does. */
  lemma Grows(runId: string, h: History, iteration: nat, body: Body)
    requires Accepts(runId, h)
    ensures var after := h + [Entry(runId, h, iteration, body)];
            && (Accepts(runId, after) <==> MayFollow(runId, h, body))
            && Started(after) == Started(h) + (if body.CallStarted? then {body.callId} else {})
            && Finished(after) == Finished(h) + (if body.CallFinished? then {body.callId} else {})
            && (HasStop(after) <==> HasStop(h) || body.RunStopped?)
  {
    var after := h + [Entry(runId, h, iteration, body)];
    assert after[..|after| - 1] == h;
  }

  /** A crash leaves a prefix, and a prefix of an acceptable history is one. */
  lemma {:induction false} PrefixAccepted(runId: string, h: History, k: nat)
    requires Accepts(runId, h) && k <= |h|
    ensures Accepts(runId, h[..k])
    ensures k < |h| ==> !HasStop(h[..k])
    decreases |h|
  {
    if k == |h| {
      assert h[..k] == h;
    } else {
      var init := h[..|h| - 1];
      assert init[..k] == h[..k];
      PrefixAccepted(runId, init, k);
      if k == |init| { assert h[..k] == init; }
    }
  }

  /** The ids a history has used so far all name earlier positions, so the next is new. */
  lemma {:induction false} NextIdIsNew(runId: string, h: History)
    requires Accepts(runId, h)
    ensures IdOf(runId, |h|) !in Started(h) && IdOf(runId, |h|) !in Finished(h)
    ensures Finished(h) <= Started(h)
  {
    forall id | id in Started(h) ensures id != IdOf(runId, |h|) {
      var i := StartOf(runId, h, id);
      if id == IdOf(runId, |h|) { IdsDiffer(runId, i, |h|); }
    }
    FinishedWereStarted(runId, h);
  }

  lemma {:induction false} StartOf(runId: string, h: History, id: string) returns (i: nat)
    requires Accepts(runId, h) && id in Started(h)
    ensures i < |h| && h[i].body.CallStarted? && h[i].body.callId == id == IdOf(runId, i)
  {
    if h[|h| - 1].body.CallStarted? && h[|h| - 1].body.callId == id {
      i := |h| - 1;
    } else {
      i := StartOf(runId, h[..|h| - 1], id);
    }
  }

  lemma {:induction false} FinishedWereStarted(runId: string, h: History)
    requires Accepts(runId, h)
    ensures Finished(h) <= Started(h)
  {
    if h != [] { FinishedWereStarted(runId, h[..|h| - 1]); }
  }

  lemma {:induction false} StartedIff(h: History, id: string)
    ensures id in Started(h) <==> exists e | e in h :: e.body.CallStarted? && e.body.callId == id
  {
    if h != [] {
      StartedIff(h[..|h| - 1], id);
      assert h == h[..|h| - 1] + [h[|h| - 1]];
    }
  }

  lemma {:induction false} FinishedIff(h: History, id: string)
    ensures id in Finished(h) <==> exists e | e in h :: e.body.CallFinished? && e.body.callId == id
  {
    if h != [] {
      FinishedIff(h[..|h| - 1], id);
      assert h == h[..|h| - 1] + [h[|h| - 1]];
    }
  }

  function StopBody(reason: StopReason): (body: Body)
    ensures WellShaped(body)
  {
    var r, c, s := ReasonText(reason), ClassText(ClassOf(reason)), StatusText(StatusFor(reason));
    assert !IsSpace(r[0]) && !IsSpace(c[0]) && !IsSpace(s[0]);
    RunStopped(r, c, s)
  }

  // ---------------------------------------------------------------- the log

  class EventLog {
    const runId: string
    var events: History

    constructor (runId: string, previous: History)
      requires runId != ""
      ensures this.runId == runId && events == previous
    {
      this.runId := runId;
      events := previous;
    }

    /** Build a log, on top of the records of an interrupted run when there are any. */
    static method Open(runId: string, previous: History) returns (r: Result<EventLog, LogError>)
      ensures r.Ok? <==> runId != "" && forall i | 0 <= i < |previous| ::
                           previous[i].runId == runId && previous[i].sequence == i
      ensures r.Ok? ==> fresh(r.value) && r.value.runId == runId && r.value.events == previous
    {
      if runId == "" {
        return Err(EmptyRunId);
      }
      if exists i | 0 <= i < |previous| :: previous[i].runId != runId {
        return Err(MixedRunIds);
      }
      if exists i | 0 <= i < |previous| :: previous[i].sequence != i {
        return Err(NotContiguous);
      }
      var log := new EventLog(runId, previous);
      return Ok(log);
    }

    ghost predicate Accepted()
      reads this
    {
      Accepts(runId, events)
    }

    /** Record one fact. The only way in, and the log assigns the position. */
    method Append(iteration: nat, body: Body)
      modifies this
      ensures events == old(events) + [Entry(runId, old(events), iteration, body)]
      ensures old(Accepted()) ==> (Accepted() <==> MayFollow(runId, old(events), body))
      ensures old(Accepted()) ==>
                && Started(events) == old(Started(events)) + (if body.CallStarted? then {body.callId} else {})
                && Finished(events) == old(Finished(events)) + (if body.CallFinished? then {body.callId} else {})
                && (HasStop(events) <==> old(HasStop(events)) || body.RunStopped?)
    {
      if Accepts(runId, events) { Grows(runId, events, iteration, body); }
      events := events + [Entry(runId, events, iteration, body)];
    }

    /** The id is issued here, so a call cannot be finished that was never started. */
    method StartCall(iteration: nat, kind: CallKind, idempotent: bool) returns (callId: string)
      modifies this
      ensures callId == IdOf(runId, |old(events)|)
      ensures events == old(events)
                        + [Entry(runId, old(events), iteration, CallStarted(callId, kind, idempotent))]
      ensures old(Accepted()) && old(events) != [] && !old(HasStop(events)) ==>
                && Accepted() && !HasStop(events)
                && callId !in old(Started(events)) && callId !in Finished(events)
                && Started(events) == old(Started(events)) + {callId}
                && Finished(events) == old(Finished(events))
    {
      if Accepts(runId, events) { NextIdIsNew(runId, events); }
      callId := IdOf(runId, |events|);
      Append(iteration, CallStarted(callId, kind, idempotent));
    }

    /** An outcome for a call that never began, or a second one, is refused. */
    method FinishCall(callId: string, outcome: CallOutcome, iteration: nat)
        returns (r: Outcome<LogError>)
      modifies this
      ensures r.Returned? <==> callId in old(Started(events)) && callId !in old(Finished(events))
      ensures events == if r.Raised? then old(events)
                        else old(events) + [Entry(runId, old(events), iteration, CallFinished(callId, outcome))]
      ensures r.Returned? && old(Accepted()) && !old(HasStop(events)) ==>
                && Accepted() && !HasStop(events)
                && Started(events) == old(Started(events))
                && Finished(events) == old(Finished(events)) + {callId}
    {
      StartedIff(events, callId);
      FinishedIff(events, callId);
      if !exists e | e in events :: e.body.CallStarted? && e.body.callId == callId {
        return Raised(NeverStarted(callId));
      }
      if exists e | e in events :: e.body.CallFinished? && e.body.callId == callId {
        return Raised(AlreadyFinished(callId));
      }
      Append(iteration, CallFinished(callId, outcome));
      return Returned;
    }
  }
}
