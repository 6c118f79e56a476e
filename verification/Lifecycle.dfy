/**
 A run's life beside its log: started, killed at any point, resumed, sealed, in any order and
 any number of times.
 */
module Lifecycles {
  import opened Wrappers
  import opened Lines
  import opened Machine
  import opened EventLogs
  import opened Inspect
  import HostApi
  import opened Budget
  import opened ToolGateways
  import opened RunStates
  import opened Controllers
  import opened LogTexts

  datatype StartError = UnmeteredTools | UnmeteredReaders | UnmeteredObserver | NotALog(logError: LogError)

  datatype ResumeRefused =
    | NoSuchRun | AlreadyStopped | NotStarted | BindingDiffers | UnsafeCall(callId: string)

  // ------------------------------------------------------------------- resuming

  /** A call nobody knows the outcome of, which running again could repeat. */
  predicate IsUnsafe(h: History, e: Event) {
    e.body.CallStarted? && !HasEnded(h, e.body.callId) && !e.body.idempotent
  }

  function FirstStart(h: History): Option<Binding> {
    if h == [] then None
    else if h[0].body.RunStarted? then Some(h[0].body.binding)
    else FirstStart(h[1..])
  }

  /** What a resume demands of the log: it is this run, interrupted, and safe to replay. */
  method MayResume(records: History, binding: Binding) returns (r: Outcome<ResumeRefused>)
    ensures r.Returned? <==>
              && records != []
              && (forall i | 0 <= i < |records| :: !records[i].body.RunStopped?)
              && FirstStart(records) == Some(binding)
              && (forall i | 0 <= i < |records| :: !IsUnsafe(records, records[i]))
    ensures r.Raised? && r.error.UnsafeCall? ==>
              r.error.callId in Started(records) && !HasEnded(records, r.error.callId)
  {
    if records == [] {
      return Raised(NoSuchRun);
    }
    if exists i | 0 <= i < |records| :: records[i].body.RunStopped? {
      return Raised(AlreadyStopped);
    }
    var started := FirstStart(records);
    if started.None? {
      return Raised(NotStarted);
    }
    if started.value != binding {
      return Raised(BindingDiffers);
    }
    for i := 0 to |records|
      invariant forall k | 0 <= k < i :: !IsUnsafe(records, records[k])
    {
      if IsUnsafe(records, records[i]) {
        StartedIff(records, records[i].body.callId);
        return Raised(UnsafeCall(records[i].body.callId));
      }
    }
    return Returned;
  }

  // ------------------------------------------------------------------- starting

  datatype Plan = Plan(
    config: Config, maxIterations: nat, base: Option<Base>, limits: Option<Limits>, tools: map<string, Tool>)

  ghost predicate PlanOk(p: Plan) {
    && !Blank(p.config.routeName) && BaseValid(p.base) && p.maxIterations >= 1
    && forall name | name in p.tools :: p.tools[name].Registrable()
  }

  /** The log of a new run, or of an interrupted one picked up again; it refuses neither. */
  method OpenLog(runId: string, previous: History, binding: Binding) returns (log: EventLog)
    requires runId != "" && Accepts(runId, previous) && !HasStop(previous)
    ensures fresh(log) && log.runId == runId && previous < log.events
    ensures Accepts(runId, log.events) && !HasStop(log.events)
    ensures OpenCalls(log.events) == OpenCalls(previous)
  {
    GrownIsValid(runId, previous);
    assert previous != [] ==> InPosition(previous, runId);
    var made := EventLog.Open(runId, previous);
    log := made.value;
    if previous == [] {
      log.Append(0, RunStarted(binding));
    } else {
      log.Append(0, Interrupted(OpenCalls(previous)));
      log.Append(0, Resumed);
    }
  }

  /** A host part nothing meters is refused before anything is written. */
  function Refusal(p: Plan): (r: Option<StartError>)
    ensures r.None? <==> p.limits.Some? || (|p.tools| == 0 && p.config.readers == 0 && !p.config.hasObserver)
  {
    if p.limits.Some? then None
    else if |p.tools| != 0 then Some(UnmeteredTools)
    else if p.config.readers > 0 then Some(UnmeteredReaders)
    else if p.config.hasObserver then Some(UnmeteredObserver)
    else None
  }

  /** What a run that came to its end leaves: one valid history that says why it ended. */
  ghost predicate IsDone(run: Run, runId: string, previous: History)
    reads run, run.state, run.log, run.budget
  {
    && run.log.runId == runId && run.Ended() && run.CallsSettled(OpenCalls(previous))
    && ValidHistory(run.log.events, runId) && HasStop(run.log.events)
    && ClosesWith(runId, previous, run.log.events, run.state.stopReason.value)
  }

  /** Run once on top of what the log holds, to the end. */
  method RunOnce(p: Plan, runId: string, previous: History, binding: Binding)
      returns (r: Result<Run, StartError>)
    requires PlanOk(p) && runId != "" && Accepts(runId, previous) && !HasStop(previous)
    ensures r.Ok? <==> p.limits.Some? || (|p.tools| == 0 && p.config.readers == 0 && !p.config.hasObserver)
    ensures r.Ok? ==> r.value.config == p.config && r.value.state.maxIterations == p.maxIterations
    ensures r.Ok? ==> IsDone(r.value, runId, previous)
  {
    var refused := Refusal(p);
    if refused.Some? {
      return Err(refused.value);
    }
    var run := RunToTheEnd(p, runId, previous, binding);
    return Ok(run);
  }

  method RunToTheEnd(p: Plan, runId: string, previous: History, binding: Binding) returns (run: Run)
    requires PlanOk(p) && runId != "" && Accepts(runId, previous) && !HasStop(previous)
    requires Refusal(p).None?
    ensures run.config == p.config && run.state.maxIterations == p.maxIterations
    ensures IsDone(run, runId, previous)
  {
    run := Prepare(p, runId, previous, binding);
    Carry(run, previous);
  }

  method Carry(run: Run, ghost previous: History)
    requires run.Going() && run.state.status == New && run.state.iteration < run.state.maxIterations
    requires previous < run.log.events && OpenCalls(run.log.events) == OpenCalls(previous)
    modifies run, run.log, run.budget, run.gateway, run.state
    ensures IsDone(run, run.log.runId, previous)
  {
    ghost var before := run.log.events;
    run.Execute();
    ClosedIsValid(run.log.runId, previous, before, run.log.events, run.state.stopReason.value);
  }

  lemma ClosedIsValid(runId: string, previous: History, before: History, h: History, reason: StopReason)
    requires previous < before && ClosesWith(runId, before, h, reason)
    ensures ClosesWith(runId, previous, h, reason) && ValidHistory(h, runId) && HasStop(h)
  {
    GrownIsValid(runId, h);
  }

  method Prepare(p: Plan, runId: string, previous: History, binding: Binding) returns (run: Run)
    requires PlanOk(p) && runId != "" && Accepts(runId, previous) && !HasStop(previous)
    requires Refusal(p).None?
    ensures fresh(run) && fresh(run.state) && fresh(run.log) && run.config == p.config
    ensures run.budget != null ==> fresh(run.budget)
    ensures run.gateway != null ==> fresh(run.gateway)
    ensures run.log.runId == runId && previous < run.log.events
    ensures OpenCalls(run.log.events) == OpenCalls(previous)
    ensures run.Going() && run.state.status == New && run.state.iteration == 0
    ensures run.state.maxIterations == p.maxIterations
  {
    var log := OpenLog(runId, previous, binding);
    run := Assemble(p, log, RecordedRounds(previous));
  }

  method Assemble(p: Plan, log: EventLog, recorded: seq<set<(string, string)>>) returns (run: Run)
    requires PlanOk(p) && Accepts(log.runId, log.events) && log.events != [] && !HasStop(log.events)
    requires Refusal(p).None?
    ensures fresh(run) && fresh(run.state) && run.log == log && run.config == p.config
    ensures run.budget != null ==> fresh(run.budget)
    ensures run.gateway != null ==> fresh(run.gateway)
    ensures log.events == old(log.events)
    ensures run.Going() && run.state.status == New && run.state.iteration == 0
    ensures run.state.maxIterations == p.maxIterations
  {
    var state := new AtlasRunState(p.maxIterations, p.base);
    var budget: RunBudget? := null;
    var gateway: ToolGateway? := null;
    if p.limits.Some? {
      budget := new RunBudget(p.limits.value);
      if |p.tools| != 0 {
        gateway := new ToolGateway(budget, p.tools, log, null);
      }
    }
    run := new Run(p.config, state, log, budget, gateway, recorded);
  }

  // ------------------------------------------------------------------ a whole life

  /**
   One attempt: a run, new or resumed, that dies after any record it wrote, or does not. An
   exception that escapes a run ends its log as dying there does.
   */
  method Attempt(p: Plan, runId: string, binding: Binding, store: HostApi.LogStore)
    requires PlanOk(p) && runId != ""
    requires store.records == [] || ValidHistory(store.records, runId)
    modifies store
    ensures old(store.records) <= store.records
    ensures store.records == [] || ValidHistory(store.records, runId)
    ensures HasStop(old(store.records)) ==> store.records == old(store.records)
  {
    GrownIsValid(runId, store.records);
    if store.records != [] {
      var may := MayResume(store.records, binding);
      if may.Raised? {
        return;
      }
    }
    StopAt(store.records);
    var run := RunOnce(p, runId, store.records, binding);
    if run.Err? {
      return;
    }
    KeepWhatWasWritten(runId, run.value.log.events, store);
  }

  /** The file of a process that died, or did not: what it held before, and some of the rest. */
  method KeepWhatWasWritten(runId: string, written: History, store: HostApi.LogStore)
    requires ValidHistory(written, runId) && store.records <= written
    modifies store
    ensures old(store.records) <= store.records <= written
    ensures store.records == [] || ValidHistory(store.records, runId)
  {
    var survived: nat := *;
    if survived < |store.records| || survived > |written| {
      survived := |written|;
    }
    if survived > 0 { CrashPrefixIsValid(written, runId, survived); }
    store.records := written[..survived];
    store.torn := *;
  }

  /**
   Whatever is done to a run's log, in any order and any number of times - runs killed at any
   record, resumes by hosts with other parts, tools and limits, seals - what is in it is a
   valid history.
   */
  method Live(plans: nat -> Plan, runId: string, bindings: nat -> Binding, store: HostApi.LogStore)
    requires runId != "" && store.records == [] && forall i :: PlanOk(plans(i))
    modifies store
    ensures store.records == [] || ValidHistory(store.records, runId)
  {
    var events: nat := *;
    var i: nat := 0;
    while i < events
      invariant store.records == [] || ValidHistory(store.records, runId)
    {
      var sealIt: bool := *;
      if sealIt {
        var reason: StopReason := *;
        var outcome := store.SealLostRun(runId, reason, bindings(i));
      } else {
        Attempt(plans(i), runId, bindings(i), store);
      }
      i := i + 1;
    }
  }
}
