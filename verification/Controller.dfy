/**
 The loop: route, plan, execute, grade, and decide whether to read again, try again or stop.

 The host's parts are arbitrary: the model adapter and the observer may call the gateway and
 the budget as they like, return anything or raise; sources change between reads; the clock
 and the caller may end the run at any boundary.
 */
module Controllers {
  import opened Wrappers
  import opened Lines
  import opened Machine
  import opened EventLogs
  import opened Budget
  import opened ToolGateways
  import opened Observations
  import Snapshots
  import opened Observers
  import ClaimChecks
  import Evidence
  import Grading
  import GradingProofs
  import opened Evaluators
  import opened RunStates
  import opened LogTexts
  import PartialReads
  import Findings

  /** What a run is started with. */
  datatype Config = Config(
    route: Route, routeName: string, requiresApproval: bool, hasModel: bool, modelIsIdempotent: bool,
    hasObserver: bool, readFirst: bool, readers: nat, extra: set<SourceType>, tokenizer: ClaimChecks.Tokenizer)

  datatype RoundResult = NewMaterial | Nothing | Stopped

  /** What came after a grading: the time was up, or the gate looked and the host perhaps answered. */
  datatype Look = Late | Looked(moved: bool, answer: Option<RoundResult>)

  /** What a host callback raises: a limit of the run, or anything else. */
  datatype HostError = Limit(budgetError: BudgetError) | Other

  /** The drift gate's look at the world: did HEAD move, and what each source reads as now. */
  datatype Gate = Gate(headMoved: bool, readings: seq<Reading>)
  {
    predicate IsConsistent(obs: seq<Observation>) {
      !headMoved && |readings| == |obs|
      && forall i | 0 <= i < |obs| :: Snapshots.Verify(obs[i], readings[i]) == Snapshots.Fresh
    }
  }

  /** Two passes failed the same way; the gap codes of the action follow from these four. */
  predicate SameFailure(a: Evaluation, b: Evaluation) {
    && a.nextAction.Some? && a.nextAction == b.nextAction && a.missing == b.missing
    && multiset(a.gaps) == multiset(b.gaps) && multiset(a.unverified) == multiset(b.unverified)
  }

  /** An evaluation that says what its question deserves. */
  ghost predicate Answers(q: Question, e: Evaluation) {
    (e.passed <==> Deserves(q)) && e.grade == GradeOf(q) && e.requiresApproval == q.requiresApproval
    && GradingProofs.EntriesOk(q.parsed.Entries())
  }

  /** A limit keeps its own reason; anything else a host raises is the machinery failing. */
  function ReasonFor(error: HostError): (reason: StopReason)
    ensures reason in {Cancellation, BudgetExhausted, ToolError}
  {
    match error
    case Limit(RunCancelled) => Cancellation
    case Limit(BudgetExceeded(_)) => BudgetExhausted
    case _ => ToolError
  }

  /** The errors that stop a run inside a model call without a word about the call. */
  predicate IsLimit(error: HostError) {
    error.Limit? && error.budgetError != UnmeteredUsage
  }

  function OpenCalls(h: History): set<string> {
    Started(h) - Finished(h)
  }

  /** The history holds the start of this model call. */
  predicate IsModelCall(h: History, call: string, idempotent: bool) {
    exists e | e in h :: e.body == CallStarted(call, ModelCall, idempotent)
  }

  /** One model call was left open, beyond the calls that were. */
  predicate LeftOpen(h: History, before: set<string>, call: string, idempotent: bool) {
    OpenCalls(h) == before + {call} && call !in before && IsModelCall(h, call, idempotent)
  }

  lemma SettledStays(
      h: History, longer: History, readable: bool, reason: Option<StopReason>, before: set<string>, idempotent: bool)
    requires h <= longer && OpenCalls(longer) == OpenCalls(h) && IsSettled(h, readable, reason, before, idempotent)
    ensures IsSettled(longer, readable, reason, before, idempotent)
  {
    if call :| LeftOpen(h, before, call, idempotent) {
      CallStays(h, longer, call, idempotent);
      assert LeftOpen(longer, before, call, idempotent);
    }
  }

  lemma CallStays(h: History, longer: History, call: string, idempotent: bool)
    requires h <= longer && IsModelCall(h, call, idempotent)
    ensures IsModelCall(longer, call, idempotent)
  {
    var e :| e in h && e.body == CallStarted(call, ModelCall, idempotent);
    assert e in longer;
  }

  /** The reasons that have nothing to do with how the answer was graded. */
  predicate IsInterruption(reason: Option<StopReason>) {
    reason in {Some(Cancellation), Some(BudgetExhausted), Some(ToolError), Some(Blocked)}
  }

  function Flatten(rounds: seq<seq<string>>): set<string> {
    set i, p | 0 <= i < |rounds| && p in rounds[i] :: p
  }

  /** Every pattern was asked about in an earlier round. */
  predicate AllResolved(patterns: seq<string>, rounds: seq<seq<string>>) {
    forall p | p in patterns :: p in Flatten(rounds)
  }

  /** What a stopped run leaves open: what was, and one model call when a limit cut it short. */
  ghost predicate IsSettled(
      h: History, readable: bool, reason: Option<StopReason>, before: set<string>, idempotent: bool)
  {
    (readable ==> OpenCalls(h) == before)
    || (reason in {Some(Cancellation), Some(BudgetExhausted)}
        && exists call :: LeftOpen(h, before, call, idempotent))
  }

  /** The history went on, was stopped for this reason, once, and ends there. */
  ghost predicate ClosesWith(runId: string, before: History, h: History, reason: StopReason) {
    && Accepts(runId, h) && before < h
    && h[|h| - 1].body == StopBody(reason) && !HasStop(h[..|h| - 1])
  }

  class Run {
    const config: Config
    const state: AtlasRunState
    const log: EventLog
    const budget: RunBudget?
    const gateway: ToolGateway?
    /** What each observation round of an interrupted run adopted. */
    const recorded: seq<set<(string, string)>>
    /** What each evaluation was asked, and the last look of the drift gate. */
    ghost var asked: seq<Question>
    ghost var gate: Gate

    constructor (
        config: Config, state: AtlasRunState, log: EventLog, budget: RunBudget?, gateway: ToolGateway?,
        recorded: seq<set<(string, string)>>)
      ensures this.config == config && this.state == state && this.log == log
      ensures this.budget == budget && this.gateway == gateway && this.recorded == recorded
      ensures asked == []
    {
      this.config, this.state, this.log, this.budget := config, state, log, budget;
      this.gateway, this.recorded := gateway, recorded;
      asked, gate := [], Gate(true, []);
    }

    /** No unmetered reads or tools, and one budget and one log for everything. */
    predicate Wired() {
      && (config.hasObserver ==> budget != null)
      && (config.readers > 0 ==> budget != null)
      && (gateway != null ==> budget != null && gateway.budget == budget && gateway.log == log)
      && !Blank(config.routeName)
    }

    ghost predicate Live()
      reads log
    {
      Accepts(log.runId, log.events) && log.events != [] && !HasStop(log.events)
    }

    ghost predicate Ready()
      reads this, state, log, budget, gateway
    {
      && Wired() && state.Valid() && Live() && BaseValid(state.base)
      && (budget != null ==> budget.Valid())
      && (gateway != null ==> gateway.Valid())
      && |asked| == |state.evaluations|
    }

    ghost predicate Going()
      reads this, state, log, budget, gateway
    {
      Ready() && state.stopReason.None?
    }

    /** No registered tool has a schema the gateway cannot read. */
    ghost predicate ReadsSchemas() {
      gateway != null ==> gateway.SchemasReadable()
    }

    /** Every call begun since has an outcome, when the schemas can be read. */
    ghost predicate CallsClosed(before: set<string>)
      reads log
    {
      ReadsSchemas() ==> OpenCalls(log.events) == before
    }

    /** So do they when the run stops, but for one model call that a limit cut short. */
    ghost predicate CallsSettled(before: set<string>)
      reads log, state`stopReason
    {
      IsSettled(log.events, ReadsSchemas(), state.stopReason, before, config.modelIsIdempotent)
    }

    // ------------------------------------------------------------------ stopping

    method Halt(reason: StopReason)
      requires Going() && (reason == ApprovalRequired ==> state.status == Evaluating)
      modifies state`status, state`path, state`stopReason
      ensures Ready() && state.stopReason == Some(reason)
    {
      var stopped := state.Stop(reason);
      assert stopped.Returned?;
    }

    method HaltFor(error: HostError)
      requires Going()
      modifies state`status, state`path, state`stopReason
      ensures Ready() && state.stopReason == Some(ReasonFor(error))
    {
      Halt(ReasonFor(error));
    }

    method Move(target: Status)
      requires Going() && IsLegal(state.status, target) && !IsTerminal(target)
      modifies state`status, state`path
      ensures Going() && state.status == target
    {
      var moved := state.Enter(target);
      assert moved.Returned?;
    }

    /** Asked at every boundary: the deadline and the caller. */
    method Expired() returns (late: bool)
      requires Going()
      modifies state`status, state`path, state`stopReason
      ensures Ready() && (late <==> state.stopReason.Some?)
      ensures late ==> state.stopReason in {Some(Cancellation), Some(BudgetExhausted), Some(ToolError)}
      ensures !late ==> unchanged(state)
    {
      var checked: Outcome<BudgetError> := Returned;
      if budget == null {
        var cancelled: bool := *;
        if cancelled { checked := Raised(RunCancelled); }
      } else {
        checked := budget.Check();
      }
      late := checked.Raised?;
      if late { HaltFor(Limit(checked.error)); }
    }

    /** Record a fact that is no start, no stop and no call. */
    method RecordFact(body: Body)
      requires Going() && WellShaped(body)
      requires !body.RunStarted? && !body.CallStarted? && !body.CallFinished? && !body.RunStopped?
      modifies log
      ensures Going() && old(log.events) < log.events && log.events[|log.events| - 1].body == body
      ensures OpenCalls(log.events) == old(OpenCalls(log.events))
    {
      log.Append(state.iteration, body);
    }

    // ------------------------------------------------------------- observing again

    /** A host part uses the budget it was handed, once, in any way, and may ignore the answer. */
    method UseBudget()
      requires budget != null && budget.Valid()
      modifies budget
      ensures budget.Valid() && budget.toolCalls >= old(budget.toolCalls)
    {
      var way: int := *;
      if way == 0 {
        var reserved := budget.ReserveTool();
      } else if way == 1 {
        var reserved := budget.ReserveModel();
      } else if way == 2 {
        var usage: Option<nat> := *;
        var charged := budget.ChargeTokens(usage);
      } else {
        var bytes: nat := *;
        var charged := budget.ChargeOutput(bytes);
      }
    }

    /** The host reads, with the whole budget at its disposal, and answers or raises. */
    method AskHost() returns (r: Result<seq<Observation>, HostError>)
      requires budget != null && budget.Valid()
      modifies budget
      ensures budget.Valid() && budget.toolCalls >= old(budget.toolCalls)
      ensures r.Ok? ==> forall i | 0 <= i < |r.value| :: Observations.Valid(r.value[i])
    {
      var uses: nat := *;
      while uses > 0
        invariant budget.Valid() && budget.toolCalls >= old(budget.toolCalls)
      {
        UseBudget();
        uses := uses - 1;
      }
      r := *;
      if r.Ok? && exists i | 0 <= i < |r.value| :: Observations.Invalid(r.value[i]).Some? {
        r := Err(Other);
      }
    }

    /** Ask, then fold the answer into what the run holds: any failure keeps its own reason. */
    method ReadAndMerge(base: Base) returns (r: Result<(seq<Observation>, Round), HostError>)
      requires budget != null && budget.Valid() && BaseValid(Some(base))
      modifies budget
      ensures budget.Valid() && budget.toolCalls >= old(budget.toolCalls)
      ensures r.Ok? ==> BaseValid(Some(Base(base.snapshotId, r.value.0))) && RoundIsText(r.value.1)
      ensures r.Ok? && !r.value.1.HasNewMaterial() ==> r.value.0 == base.obs
    {
      var checked := budget.Check();
      if checked.Raised? {
        return Err(Limit(checked.error));
      }
      var incoming :- AskHost();
      var merged := MergeObservations(base.snapshotId, base.obs, incoming);
      if merged.Err? {
        return Err(Other);
      }
      MergedIsABase(base.snapshotId, base.obs, incoming);
      return Ok(merged.value);
    }

    method Charge(count: nat) returns (r: Outcome<BudgetError>)
      requires budget != null && budget.Valid()
      modifies budget`outputBytes
      ensures budget.Valid()
      ensures r.Raised? ==> r.error != UnmeteredUsage
      ensures r.Returned? && count > 0 ==> budget.outputBytes <= budget.limits.outputBytes
    {
      for i := 0 to count
        invariant budget.Valid() && (i > 0 ==> budget.outputBytes <= budget.limits.outputBytes)
      {
        var bytes: nat := *;
        :- budget.ChargeOutput(bytes);
      }
      return Returned;
    }

    method BeginCall(kind: CallKind, idempotent: bool) returns (call: string)
      requires Going()
      modifies log
      ensures Going() && old(log.events) < log.events
      ensures call == IdOf(log.runId, |old(log.events)|)
      ensures log.events[|log.events| - 1].body == CallStarted(call, kind, idempotent)
      ensures OpenCalls(log.events) == old(OpenCalls(log.events)) + {call}
      ensures call !in old(OpenCalls(log.events))
    {
      call := log.StartCall(state.iteration, kind, idempotent);
    }

    method FinishCall(call: string, outcome: CallOutcome)
      requires Going() && call in Started(log.events) && call !in Finished(log.events)
      modifies log
      ensures Going() && old(log.events) < log.events
      ensures log.events[|log.events| - 1].body == CallFinished(call, outcome)
      ensures OpenCalls(log.events) == old(OpenCalls(log.events)) - {call}
    {
      var finished := log.FinishCall(call, outcome, state.iteration);
      assert finished.Returned?;
    }

    /** Which outcome a call that raised is recorded with. */
    function OutcomeOf(error: HostError): CallOutcome {
      if error.Limit? && error.budgetError.BudgetExceeded? then CallDenied else CallFailed
    }

    method FailRead(read: string, error: HostError) returns (r: RoundResult)
      requires Going() && read in Started(log.events) && read !in Finished(log.events)
      modifies log, state`status, state`path, state`stopReason
      ensures Ready() && old(log.events) < log.events && r == Stopped
      ensures log.events[|log.events| - 1].body == CallFinished(read, OutcomeOf(error))
      ensures OpenCalls(log.events) == old(OpenCalls(log.events)) - {read}
      ensures state.stopReason == Some(ReasonFor(error))
    {
      FinishCall(read, OutcomeOf(error));
      HaltFor(error);
      return Stopped;
    }

    /** What the interrupted run recorded for this round is what a replay must read. */
    predicate ReplayDiffers(round: Round)
      reads state`rounds
    {
      |state.rounds| < |recorded| && RoundMaterial(round) != recorded[|state.rounds|]
    }

    /** What was adopted was paid for, and is what a replayed round recorded. */
    twostate predicate Adopted()
      reads this, state, log, budget
    {
      && (budget != null && state.base != old(state.base) ==> budget.outputBytes <= budget.limits.outputBytes)
      && (|old(state.rounds)| < |recorded| ==>
            log.events != []
            && LoggedMaterial(log.events[|log.events| - 1].body) == recorded[|old(state.rounds)|])
    }

    /**
     One round of reading: ask the host, merge, pay, log. Its call gets an outcome however it
     ends, nothing is adopted before the budget has paid for it, a replayed round adopts what
     the interrupted run recorded, and a round that brings nothing leaves the sources as they
     were.
     */
    method ObserveRound(patterns: seq<string>) returns (r: RoundResult, ghost round: Option<Round>)
      requires Going() && budget != null && state.base.Some? && state.status == Observing
      modifies log, budget, state`status, state`path, state`stopReason, state`base, state`rounds
      ensures Ready() && old(log.events) <= log.events
      ensures r == Stopped <==> state.stopReason.Some?
      ensures r == Stopped ==> IsInterruption(state.stopReason)
      ensures state.stopReason == Some(Blocked) <==> round.Some? && old(ReplayDiffers(round.value))
      ensures r != Stopped ==> state.status == Observing && state.base.Some? && Adopted()
      ensures r != NewMaterial ==> state.base == old(state.base)
      ensures OpenCalls(log.events) == old(OpenCalls(log.events))
    {
      var base := state.base.value;
      var read := BeginCall(Observe, true);
      var answer := ReadAndMerge(base);
      if answer.Err? {
        r := FailRead(read, answer.error);
        return r, None;
      }
      r := TakeRound(read, patterns, answer.value.0, answer.value.1);
      round := Some(answer.value.1);
    }

    method TakeRound(read: string, patterns: seq<string>, merged: seq<Observation>, round: Round)
        returns (r: RoundResult)
      requires Going() && budget != null && state.base.Some? && state.status == Observing
      requires read in Started(log.events) && read !in Finished(log.events) && RoundIsText(round)
      requires BaseValid(Some(Base(state.base.value.snapshotId, merged)))
      requires !round.HasNewMaterial() ==> merged == state.base.value.obs
      modifies log, budget, state`status, state`path, state`stopReason, state`base, state`rounds
      ensures Ready() && old(log.events) <= log.events
      ensures r == Stopped <==> state.stopReason.Some?
      ensures old(ReplayDiffers(round)) ==> state.stopReason == Some(Blocked)
      ensures !old(ReplayDiffers(round)) && r == Stopped ==>
                state.stopReason in {Some(Cancellation), Some(BudgetExhausted)}
      ensures r != Stopped ==> state.status == Observing && state.base.Some? && Adopted()
      ensures r != NewMaterial ==> state.base == old(state.base)
      ensures OpenCalls(log.events) == old(OpenCalls(log.events)) - {read}
    {
      if ReplayDiffers(round) {
        FinishCall(read, CallOk);
        Halt(Blocked);
        return Stopped;
      }
      var charged := Charge(|round.added| + |round.superseded| + |round.reframed|);
      if charged.Raised? {
        r := FailRead(read, Limit(charged.error));
        return;
      }
      FinishCall(read, CallOk);
      r := Adopt(patterns, merged, round);
    }

    method LogRound(round: Round)
      requires Going() && RoundIsText(round)
      modifies log
      ensures Going() && old(log.events) < log.events
      ensures LoggedMaterial(log.events[|log.events| - 1].body) == RoundMaterial(round)
      ensures OpenCalls(log.events) == old(OpenCalls(log.events))
    {
      MaterialReadsBack(round);
      var body := RoundRecord(round);
      RecordFact(body);
    }

    method KeepRound(patterns: seq<string>, round: Round)
      requires Going() && RoundIsText(round)
      modifies log, state`rounds
      ensures Going() && old(log.events) < log.events && state.rounds == old(state.rounds) + [patterns]
      ensures LoggedMaterial(log.events[|log.events| - 1].body) == RoundMaterial(round)
      ensures OpenCalls(log.events) == old(OpenCalls(log.events))
    {
      state.rounds := state.rounds + [patterns];
      LogRound(round);
    }

    method Adopt(patterns: seq<string>, merged: seq<Observation>, round: Round) returns (r: RoundResult)
      requires Going() && state.base.Some? && RoundIsText(round)
      requires BaseValid(Some(Base(state.base.value.snapshotId, merged)))
      modifies log, state`base, state`rounds
      ensures Going() && old(log.events) < log.events && r != Stopped && state.base.Some?
      ensures LoggedMaterial(log.events[|log.events| - 1].body) == RoundMaterial(round)
      ensures OpenCalls(log.events) == old(OpenCalls(log.events))
      ensures state.rounds == old(state.rounds) + [patterns]
      ensures r == Nothing <==> !round.HasNewMaterial() && AllResolved(patterns, old(state.rounds))
      ensures state.base == if r != NewMaterial then old(state.base)
                            else Some(Base(old(state.base).value.snapshotId, merged))
    {
      var resolved := AllResolved(patterns, state.rounds);
      r := AdoptUnless(!round.HasNewMaterial() && resolved, patterns, merged, round);
    }

    method AdoptUnless(nothing: bool, patterns: seq<string>, merged: seq<Observation>, round: Round)
        returns (r: RoundResult)
      requires Going() && state.base.Some? && RoundIsText(round)
      requires BaseValid(Some(Base(state.base.value.snapshotId, merged)))
      modifies log, state`base, state`rounds
      ensures Going() && old(log.events) < log.events && state.base.Some?
      ensures LoggedMaterial(log.events[|log.events| - 1].body) == RoundMaterial(round)
      ensures OpenCalls(log.events) == old(OpenCalls(log.events))
      ensures state.rounds == old(state.rounds) + [patterns]
      ensures r == if nothing then Nothing else NewMaterial
      ensures state.base == if nothing then old(state.base)
                            else Some(Base(old(state.base).value.snapshotId, merged))
    {
      KeepRound(patterns, round);
      if nothing {
        return Nothing;
      }
      Hold(Some(Base(state.base.value.snapshotId, merged)));
      return NewMaterial;
    }

    method Hold(base: Option<Base>)
      requires Going() && BaseValid(base)
      modifies state`base
      ensures Going() && state.base == base
    {
      state.base := base;
    }

    // --------------------------------------------------------------- the model

    /** The adapter works: tools, budget, and then an answer or an exception. */
    method CallAdapter() returns (r: Result<(string, Option<nat>), HostError>)
      requires Going()
      modifies log, budget, gateway
      ensures Going() && old(log.events) <= log.events
      ensures old(OpenCalls(log.events)) <= OpenCalls(log.events)
      ensures CallsClosed(old(OpenCalls(log.events)))
    {
      var steps: nat := *;
      while steps > 0
        invariant Going() && old(log.events) <= log.events
        invariant old(OpenCalls(log.events)) <= OpenCalls(log.events)
        invariant CallsClosed(old(OpenCalls(log.events)))
      {
        AdapterStep();
        steps := steps - 1;
      }
      r := *;
    }

    /** A blank answer is as good as an exception. */
    method AdapterAnswer() returns (r: Result<(string, Option<nat>), HostError>)
      requires Going()
      modifies log, budget, gateway
      ensures Going() && old(log.events) <= log.events
      ensures old(OpenCalls(log.events)) <= OpenCalls(log.events)
      ensures CallsClosed(old(OpenCalls(log.events)))
      ensures r.Ok? ==> !Blank(r.value.0)
    {
      r := CallAdapter();
      if r.Ok? && Blank(r.value.0) {
        r := Err(Other);
      }
    }

    method AdapterStep()
      requires Going()
      modifies log, budget, gateway
      ensures Going() && old(log.events) <= log.events
      ensures old(OpenCalls(log.events)) <= OpenCalls(log.events)
      ensures CallsClosed(old(OpenCalls(log.events)))
    {
      var usesTool: bool := *;
      if gateway != null && usesTool {
        var name: string := *;
        var arguments: Arguments := *;
        var answer := gateway.Invoke(name, arguments, 0);
      } else if budget != null {
        UseBudget();
      }
    }

    /** The provider call ended; what follows is accounting about it. */
    method Account(usage: Option<nat>) returns (r: Outcome<BudgetError>)
      requires Going()
      modifies budget
      ensures Going()
      ensures r.Returned? && budget != null ==> budget.WithinTotals()
    {
      if budget != null {
        :- budget.ChargeTokens(usage);
        var bytes: nat := *;
        :- budget.ChargeOutput(bytes);
      }
      return Returned;
    }

    /** One model call: reserved, then made. */
    method ModelPass() returns (output: Option<string>)
      requires Going() && state.status == Executing
      modifies log, budget, gateway, state`status, state`path, state`stopReason
      ensures Ready() && old(log.events) <= log.events
      ensures output.Some? <==> state.stopReason.None?
      ensures output.None? ==> state.stopReason in {Some(Cancellation), Some(BudgetExhausted), Some(ToolError)}
      ensures output.Some? ==> state.status == Executing && CallsClosed(old(OpenCalls(log.events)))
      ensures output.Some? && budget != null ==> budget.WithinTotals()
      ensures CallsSettled(old(OpenCalls(log.events)))
    {
      if budget != null {
        var reserved := budget.ReserveModel();
        if reserved.Raised? {
          HaltFor(Limit(reserved.error));
          return None;
        }
      }
      ghost var raised;
      output, raised := CallModel();
    }

    /**
     One model call: started in the log, made, finished, paid for. It stays without an outcome
     exactly when the adapter raised a limit, which is then why the run stops; every other call
     begun inside it is finished, when the schemas can be read.
     */
    method CallModel() returns (output: Option<string>, ghost raised: Option<HostError>)
      requires Going() && state.status == Executing
      modifies log, budget, gateway, state`status, state`path, state`stopReason
      ensures Ready() && old(log.events) <= log.events
      ensures output.Some? <==> state.stopReason.None?
      ensures raised.Some? ==> state.stopReason == Some(ReasonFor(raised.value))
      ensures output.None? ==> state.stopReason in {Some(Cancellation), Some(BudgetExhausted), Some(ToolError)}
      ensures output.Some? ==> state.status == Executing && CallsClosed(old(OpenCalls(log.events)))
      ensures output.Some? && budget != null ==> budget.WithinTotals()
      ensures IdOf(log.runId, |old(log.events)|) in OpenCalls(log.events)
              <==> raised.Some? && IsLimit(raised.value)
      ensures CallsSettled(old(OpenCalls(log.events)))
    {
      ghost var before := OpenCalls(log.events);
      var call := BeginCall(ModelCall, config.modelIsIdempotent);
      ghost var begun := log.events;
      assert IsModelCall(begun, call, config.modelIsIdempotent);
      var answer := AdapterAnswer();
      CallStays(begun, log.events, call, config.modelIsIdempotent);
      output := Settle(call, answer, before);
      raised := if answer.Err? then Some(answer.error) else None;
    }

    /** The adapter's answer, or why there is none. */
    method Settle(call: string, answer: Result<(string, Option<nat>), HostError>, ghost before: set<string>)
        returns (output: Option<string>)
      requires Going() && state.status == Executing && call in OpenCalls(log.events) && call !in before
      requires IsModelCall(log.events, call, config.modelIsIdempotent) && CallsClosed(before + {call})
      modifies log, budget, state`status, state`path, state`stopReason
      ensures Ready() && old(log.events) <= log.events
      ensures output.Some? <==> state.stopReason.None?
      ensures answer.Err? ==> state.stopReason == Some(ReasonFor(answer.error))
      ensures output.None? ==> state.stopReason in {Some(Cancellation), Some(BudgetExhausted), Some(ToolError)}
      ensures output.Some? ==> state.status == Executing && CallsClosed(before)
      ensures output.Some? && budget != null ==> budget.WithinTotals()
      ensures call in OpenCalls(log.events) <==> answer.Err? && IsLimit(answer.error)
      ensures CallsSettled(before)
    {
      if answer.Err? {
        FailCall(call, answer.error, before);
        return None;
      }
      output := Accept(call, answer.value.0, answer.value.1);
    }

    /** The adapter raised: a limit stops the run as it is, anything else finishes the call first. */
    method FailCall(call: string, error: HostError, ghost before: set<string>)
      requires Going() && call in OpenCalls(log.events) && call !in before
      requires IsModelCall(log.events, call, config.modelIsIdempotent) && CallsClosed(before + {call})
      modifies log, state`status, state`path, state`stopReason
      ensures Ready() && old(log.events) <= log.events && state.stopReason == Some(ReasonFor(error))
      ensures call in OpenCalls(log.events) <==> IsLimit(error)
      ensures CallsSettled(before)
    {
      if !IsLimit(error) {
        FinishCall(call, CallFailed);
      }
      HaltFor(error);
      if IsLimit(error) && ReadsSchemas() {
        assert LeftOpen(log.events, before, call, config.modelIsIdempotent);
      }
    }

    method Accept(call: string, text: string, usage: Option<nat>) returns (output: Option<string>)
      requires Going() && state.status == Executing
      requires call in Started(log.events) && call !in Finished(log.events)
      modifies log, budget, state`status, state`path, state`stopReason
      ensures Ready() && old(log.events) <= log.events
      ensures output.Some? <==> state.stopReason.None?
      ensures output.None? ==> state.stopReason in {Some(Cancellation), Some(BudgetExhausted), Some(ToolError)}
      ensures output.Some? ==> state.status == Executing
      ensures output.Some? && budget != null ==> budget.WithinTotals()
      ensures OpenCalls(log.events) == old(OpenCalls(log.events)) - {call}
    {
      FinishCall(call, CallOk);
      var paid := Account(usage);
      if paid.Raised? {
        HaltFor(Limit(paid.error));
        return None;
      }
      return Some(text);
    }

    /** Without a model the output is rendered from what the run holds, and still paid for. */
    method RenderPass() returns (output: Option<string>)
      requires Going() && state.status == Executing
      modifies budget, state`status, state`path, state`stopReason
      ensures Ready()
      ensures output.Some? <==> state.stopReason.None?
      ensures output.None? ==> state.stopReason in {Some(Cancellation), Some(BudgetExhausted), Some(ToolError)}
      ensures output.Some? ==> state.status == Executing
      ensures output.Some? && budget != null ==> budget.outputBytes <= budget.limits.outputBytes
    {
      var text: string := *;
      if budget != null {
        var bytes: nat := *;
        var charged := budget.ChargeOutput(bytes);
        if charged.Raised? {
          HaltFor(Limit(charged.error));
          return None;
        }
      }
      return Some(text);
    }

    // ----------------------------------------------------------------- grading

    /** What the output cost has been paid for, within the run's totals. */
    ghost predicate Paid()
      reads budget
    {
      budget != null ==>
        budget.outputBytes <= budget.limits.outputBytes
        && (config.hasModel ==> budget.tokens <= budget.limits.tokens)
    }

    /** The last evaluation, and the question it answers, are about the run as it stands. */
    ghost predicate Graded(q: Question, e: Evaluation)
      reads this`asked, state`evaluations, state`base, state`iteration
    {
      && asked != [] && asked[|asked| - 1] == q
      && state.evaluations != [] && state.evaluations[|state.evaluations| - 1] == e
      && Fits(q, e)
    }

    /** What the evaluator is handed: the output, what it declares, and the sources as they are. */
    method Ask(output: string) returns (q: Question)
      requires Going()
      ensures q.route == config.route && q.requiresApproval == config.requiresApproval
      ensures q.iteration == state.iteration && q.maxIterations == state.maxIterations
      ensures GradingProofs.EntriesOk(q.parsed.Entries())
      ensures q.sources.Some? <==> state.base.Some?
      ensures q.sources.Some? ==> q.sources.value.obs == state.base.value.obs
    {
      var parsed: Evidence.Parsed := *;
      if parsed.Block? && exists i | 0 <= i < |parsed.entries| :: !Findings.FindingOk(parsed.entries[i].finding) {
        parsed := Evidence.Malformed;
      }
      var structuredRequired: bool := *;
      var observed: seq<string> := *;
      var review: Option<ReviewPlan> := *;
      var readings: Grading.Reads := *;
      var sources := None;
      if state.base.Some? {
        sources := Some(Grading.Sources(state.base.value.obs, config.extra, config.tokenizer, readings));
      } else {
        review := None;
      }
      return Question(
        config.route, config.requiresApproval, output, parsed, structuredRequired, sources, observed,
        review, Flatten(state.rounds), state.iteration, state.maxIterations);
    }

    method AskAndEvaluate(output: string) returns (q: Question, e: Evaluation)
      requires Going()
      ensures Answers(q, e) && Fits(q, e)
    {
      q := Ask(output);
      e := Evaluate(q);
    }

    /** The question is about the run as it stands, and the evaluation is coherent. */
    ghost predicate Fits(q: Question, e: Evaluation)
      reads state`base, state`iteration
    {
      && (e.passed ==> !e.requiresApproval)
      && (e.retryIsPossible ==> !e.passed && !e.requiresApproval)
      && (e.shouldRetry <==> e.retryIsPossible && state.iteration < state.maxIterations)
      && q.route == config.route && q.requiresApproval == config.requiresApproval
      && (q.sources.Some? <==> state.base.Some?)
      && (q.sources.Some? ==> q.sources.value.obs == state.base.value.obs)
    }

    method Keep(q: Question, e: Evaluation)
      requires Going() && Fits(q, e)
      modifies state`evaluations, this`asked
      ensures Going() && Graded(q, e)
      ensures asked == old(asked) + [q] && state.evaluations == old(state.evaluations) + [e]
    {
      asked := asked + [q];
      state.evaluations := state.evaluations + [e];
    }

    method Note(q: Question, e: Evaluation)
      requires Going() && Fits(q, e)
      modifies log, state`evaluations, this`asked
      ensures Going() && Graded(q, e) && old(log.events) <= log.events
      ensures log.events[|log.events| - 1].body == DecisionBody(e)
      ensures asked == old(asked) + [q] && state.evaluations == old(state.evaluations) + [e]
      ensures OpenCalls(log.events) == old(OpenCalls(log.events))
    {
      Keep(q, e);
      RecordFact(DecisionBody(e));
    }

    /** Whether what the run read still stands: HEAD, and every source, cited or not. */
    method DriftMoved() returns (moved: bool)
      requires Going()
      modifies this`gate
      ensures Going()
      ensures !moved && state.base.Some? && state.base.value.obs != [] ==> gate.IsConsistent(state.base.value.obs)
    {
      if state.base.None? || state.base.value.obs == [] {
        return false;
      }
      var obs := state.base.value.obs;
      var readings: seq<Reading> := [];
      var headMoved: bool := *;
      moved := headMoved;
      for i := 0 to |obs|
        invariant |readings| == i && (headMoved ==> moved)
        invariant !moved ==> forall k | 0 <= k < i :: Snapshots.Verify(obs[k], readings[k]) == Snapshots.Fresh
      {
        var reading: Reading := *;
        readings := readings + [reading];
        if Snapshots.Verify(obs[i], reading) != Snapshots.Fresh { moved := true; }
      }
      gate := Gate(headMoved, readings);
    }

    /**
     Ask the host for what the evaluation misses. The line windows among it are always ones a
     request may carry, so building the request raises nothing.
     */
    method ReadAgain(q: Question, e: Evaluation) returns (r: RoundResult)
      requires Going() && state.status == Evaluating && state.base.Some? && budget != null
      requires q.sources.Some? && q.sources.value.obs == state.base.value.obs
      modifies log, budget, state`status, state`path, state`stopReason, state`base, state`rounds
      ensures Ready() && old(log.events) <= log.events && WindowsOk(WindowsAsked(q, e))
      ensures r == Stopped <==> state.stopReason.Some?
      ensures r == Stopped ==> IsInterruption(state.stopReason)
      ensures r != Stopped ==> state.status == Observing && state.base.Some? && Adopted()
      ensures r != NewMaterial ==> state.base == old(state.base)
      ensures OpenCalls(log.events) == old(OpenCalls(log.events))
    {
      if WindowsAsked(q, e) != [] {
        PartialReads.OfferedIsARequest(
          state.base.value.snapshotId, state.base.value.obs, q.review.value.Reading());
      }
      Move(Observing);
      ghost var round;
      r, round := ObserveRound(PatternsAsked(q, e));
    }

    // --------------------------------------------------------------- deciding

    /** The evaluation bears this reason out. */
    predicate Bears(e: Evaluation, reason: StopReason)
      reads state`iteration
    {
      match reason
      case Passed => e.passed && !e.requiresApproval
      case ApprovalRequired => e.requiresApproval
      case MaxIterations => e.retryIsPossible && state.iteration == state.maxIterations
      case InsufficientEvidence => !e.passed && !e.requiresApproval && e.gaps != []
      case _ => !e.passed && !e.requiresApproval
    }

    /** A reason about the answer is one the last evaluation bears out. */
    ghost predicate StopFits()
      reads state`stopReason, state`evaluations, state`iteration
    {
      state.stopReason.Some? && !IsInterruption(state.stopReason) ==>
        state.evaluations != []
        && Bears(state.evaluations[|state.evaluations| - 1], state.stopReason.value)
    }

    /** The host may be asked: it is there, the answer fell short, and another pass is left. */
    predicate MayReadAgain(e: Evaluation, moved: bool)
      reads state`base, state`iteration
    {
      config.hasObserver && state.base.Some? && !e.passed && !e.requiresApproval
      && state.iteration < state.maxIterations
      && (moved || e.nextAction == Some(ObserveAgain))
    }

    /** The next pass would need material that nobody brought. */
    predicate NeedsMaterial(e: Evaluation) {
      e.nextAction == Some(ObserveAgain) && !e.passed && !e.requiresApproval
    }

    predicate SameOutput()
      reads state`outputs
    {
      |state.outputs| >= 2 && state.outputs[|state.outputs| - 1] == state.outputs[|state.outputs| - 2]
    }

    predicate SameAsBefore()
      reads state`evaluations
    {
      |state.evaluations| >= 2
      && SameFailure(state.evaluations[|state.evaluations| - 1], state.evaluations[|state.evaluations| - 2])
    }

    /**
     What every decision leaves: a run that goes on does so unpassed and unapproved, with a pass
     left; one that stops does so for a reason its evaluation bears out, and passes only rightly.
     */
    ghost predicate Decided(goOn: bool, e: Evaluation)
      reads this, state, log, budget, gateway
    {
      && Ready() && StopFits()
      && (goOn <==> state.stopReason.None?)
      && (goOn ==> state.status == Replanning && state.iteration < state.maxIterations)
      && (goOn ==> !e.passed && !e.requiresApproval)
      && (state.stopReason == Some(Passed) ==> PassedRightly())
    }

    /** After grading: read again, stop, or replan. */
    method Decide(q: Question, e: Evaluation) returns (goOn: bool, ghost look: Look)
      requires Going() && state.status == Evaluating && Graded(q, e) && Paid()
      modifies this`gate, log, budget, state`status, state`path, state`stopReason, state`base, state`rounds
      ensures Decided(goOn, e) && old(log.events) <= log.events
      ensures look.Late? ==> state.stopReason in {Some(Cancellation), Some(BudgetExhausted), Some(ToolError)}
      ensures look.Looked? ==> (look.answer.Some? <==> old(MayReadAgain(e, look.moved)))
      ensures look.Looked? ==> EndsAs(old(AnswerStop(e)), e, look.moved, look.answer)
      ensures OpenCalls(log.events) == old(OpenCalls(log.events))
    {
      var late := Expired();
      if late {
        return false, Late;
      }
      goOn, look := LookAndDecide(q, e);
    }

    method LookAndDecide(q: Question, e: Evaluation) returns (goOn: bool, ghost look: Look)
      requires Going() && state.status == Evaluating && Graded(q, e) && Paid()
      modifies this`gate, log, budget, state`status, state`path, state`stopReason, state`base, state`rounds
      ensures Decided(goOn, e) && old(log.events) <= log.events
      ensures look.Looked? && (look.answer.Some? <==> old(MayReadAgain(e, look.moved)))
      ensures EndsAs(old(AnswerStop(e)), e, look.moved, look.answer)
      ensures OpenCalls(log.events) == old(OpenCalls(log.events))
    {
      var moved := DriftMoved();
      ghost var answer;
      goOn, answer := FindMaterial(q, e, moved);
      look := Looked(moved, answer);
    }

    /**
     Ask the host where it may be asked; where nothing new came and it was needed, stop. After a
     round that brought nothing the run is still observing, where its answer may not be decided
     on: whatever made the host worth asking, one of the two guards below ends the run first.
     */
    method FindMaterial(q: Question, e: Evaluation, moved: bool)
        returns (goOn: bool, ghost answer: Option<RoundResult>)
      requires Going() && state.status == Evaluating && Graded(q, e) && Paid()
      requires !moved && state.base.Some? && state.base.value.obs != [] ==> gate.IsConsistent(state.base.value.obs)
      modifies log, budget, state`status, state`path, state`stopReason, state`base, state`rounds
      ensures Decided(goOn, e) && old(log.events) <= log.events
      ensures answer.Some? <==> old(MayReadAgain(e, moved))
      ensures EndsAs(old(AnswerStop(e)), e, moved, answer)
      ensures OpenCalls(log.events) == old(OpenCalls(log.events))
    {
      answer := None;
      if MayReadAgain(e, moved) {
        var outcome := ReadAgain(q, e);
        answer := Some(outcome);
        if outcome == Stopped {
          return false, answer;
        }
        if outcome == NewMaterial {
          Move(Replanning);
          return true, answer;
        }
      }
      if moved {
        Halt(Blocked);
        return false, answer;
      }
      if NeedsMaterial(e) {
        Halt(Blocked);
        return false, answer;
      }
      goOn := DecideOnTheAnswer(q, e);
    }

    /**
     How a decision ends, by what the gate saw and the host answered: nothing new blocks the
     run, as a need nobody was asked about does, and what is left is decided on the answer.
     */
    ghost predicate EndsAs(
        onTheAnswer: Option<StopReason>, e: Evaluation, moved: bool, answer: Option<RoundResult>)
      reads state`stopReason
    {
      match answer
      case Some(Stopped) => IsInterruption(state.stopReason)
      case Some(NewMaterial) => state.stopReason.None?
      case Some(Nothing) => state.stopReason == Some(Blocked)
      case None => state.stopReason == if moved || NeedsMaterial(e) then Some(Blocked) else onTheAnswer
    }

    /** Another pass would get the same feedback, or give the same answer for more money. */
    predicate IsStuck(e: Evaluation)
      reads state`outputs, state`evaluations
    {
      e.retryIsPossible && e.grade.blockedBy == {}
      && ((budget != null && config.hasModel && SameOutput()) || SameAsBefore())
    }

    /** Why a run that needs no more material stops, if it does. */
    function AnswerStop(e: Evaluation): Option<StopReason>
      reads state`outputs, state`evaluations, state`iteration
    {
      if IsStuck(e) then Some(NoProgress)
      else if !e.requiresApproval && !e.passed && e.shouldRetry then None
      else Some(ClassifyStop(
        e.passed, e.requiresApproval, e.grade.blockedBy != {}, e.gaps != [], e.retryIsPossible,
        state.iteration < state.maxIterations))
    }

    method DecideOnTheAnswer(q: Question, e: Evaluation) returns (goOn: bool)
      requires Going() && state.status == Evaluating && Graded(q, e) && Paid()
      requires state.base.Some? && state.base.value.obs != [] ==> gate.IsConsistent(state.base.value.obs)
      modifies state`status, state`path, state`stopReason
      ensures Decided(goOn, e)
      ensures state.stopReason == old(AnswerStop(e))
    {
      if IsStuck(e) {
        HaltOn(q, e, NoProgress);
        return false;
      }
      if e.requiresApproval || e.passed || !e.shouldRetry {
        HaltOn(q, e, ClassifyStop(
          e.passed, e.requiresApproval, e.grade.blockedBy != {}, e.gaps != [], e.retryIsPossible,
          state.iteration < state.maxIterations));
        return false;
      }
      Move(Replanning);
      return true;
    }

    method HaltOn(q: Question, e: Evaluation, reason: StopReason)
      requires Going() && state.status == Evaluating && Graded(q, e) && Paid() && Bears(e, reason)
      requires state.base.Some? && state.base.value.obs != [] ==> gate.IsConsistent(state.base.value.obs)
      modifies state`status, state`path, state`stopReason
      ensures Decided(false, e) && state.stopReason == Some(reason)
    {
      Halt(reason);
    }

    /** What a run that stops `passed` rests on, at the moment it stops. */
    ghost predicate PassedRightly()
      reads this, state`evaluations, state`base, state`iteration, budget
    {
      && |asked| == |state.evaluations| > 0
      && var q, e := asked[|asked| - 1], state.evaluations[|state.evaluations| - 1];
      && Graded(q, e) && e.passed && !e.requiresApproval && Paid()
      && (state.base.Some? && state.base.value.obs != [] ==> gate.IsConsistent(state.base.value.obs))
    }

    ghost predicate LastAnswers()
      reads this`asked, state`evaluations
    {
      |asked| == |state.evaluations| > 0
      && Answers(asked[|asked| - 1], state.evaluations[|state.evaluations| - 1])
    }

    // ------------------------------------------------------------------ the loop

    /** Between passes: ready to route. */
    ghost predicate Between()
      reads this, state, log, budget, gateway
    {
      Going() && (state.status == Observing || state.status == Replanning)
    }

    /** What a pass leaves: a run ready for the next one, if there is one, or stopped rightly. */
    ghost predicate PassedOver(goOn: bool)
      reads this, state, log, budget, gateway
    {
      && Ready() && StopFits()
      && (goOn <==> state.stopReason.None?)
      && (goOn ==> Between() && state.iteration < state.maxIterations)
      && (state.stopReason == Some(Passed) ==> PassedRightly() && LastAnswers())
    }

    method Produce() returns (output: Option<string>)
      requires Going() && state.status == Executing
      modifies log, budget, gateway, state`status, state`path, state`stopReason
      ensures Ready() && old(log.events) <= log.events
      ensures output.Some? <==> state.stopReason.None?
      ensures output.None? ==> state.stopReason in {Some(Cancellation), Some(BudgetExhausted), Some(ToolError)}
      ensures output.Some? ==> state.status == Executing && Paid()
      ensures CallsSettled(old(OpenCalls(log.events)))
      ensures output.Some? ==> CallsClosed(old(OpenCalls(log.events)))
    {
      if config.hasModel {
        output := ModelPass();
      } else {
        output := RenderPass();
      }
    }

    /** One pass, from routing to a decision. */
    method Pass() returns (goOn: bool)
      requires Between() && state.iteration < state.maxIterations
      modifies this`asked, this`gate, log, budget, gateway, state
      ensures old(log.events) <= log.events
      ensures PassedOver(goOn)
      ensures goOn ==> state.iteration == old(state.iteration) + 1
      ensures CallsSettled(old(OpenCalls(log.events)))
      ensures goOn ==> CallsClosed(old(OpenCalls(log.events)))
    {
      var started := StartPass();
      if !started {
        return false;
      }
      goOn := FinishPass();
    }

    method FinishPass() returns (goOn: bool)
      requires Going() && state.status == Executing
      modifies this`asked, this`gate, log, budget, gateway, state
      ensures old(log.events) <= log.events && state.iteration == old(state.iteration)
      ensures PassedOver(goOn)
      ensures CallsSettled(old(OpenCalls(log.events)))
      ensures goOn ==> CallsClosed(old(OpenCalls(log.events)))
    {
      var output := Produce();
      if output.None? {
        return false;
      }
      goOn := GradePass(output.value);
    }

    method StartPass() returns (started: bool)
      requires Between() && state.iteration < state.maxIterations
      modifies log, gateway, state`status, state`path, state`stopReason, state`iteration
      ensures Ready() && old(log.events) <= log.events
      ensures started <==> state.stopReason.None?
      ensures started ==> state.status == Executing && state.iteration == old(state.iteration) + 1
      ensures !started ==> IsInterruption(state.stopReason)
      ensures OpenCalls(log.events) == old(OpenCalls(log.events))
    {
      var late := Expired();
      if late {
        return false;
      }
      state.iteration := state.iteration + 1;
      PlanPass();
      late := Expired();
      return !late;
    }

    method PlanPass()
      requires Between()
      modifies log, gateway, state`status, state`path
      ensures Going() && state.status == Executing && old(log.events) <= log.events
      ensures OpenCalls(log.events) == old(OpenCalls(log.events))
    {
      Move(Routing);
      TellGateway();
      Move(Planning);
      RecordFact(PlanSelected(Some(config.routeName)));
      Move(Executing);
    }

    method TellGateway()
      requires Going()
      modifies gateway
      ensures Going()
    {
      if gateway != null {
        var chosen := gateway.SetRoute(config.routeName);
      }
    }

    method GradePass(output: string) returns (goOn: bool)
      requires Going() && state.status == Executing && Paid()
      modifies this`asked, this`gate, log, budget, state
      ensures old(log.events) <= log.events && state.iteration == old(state.iteration)
      ensures PassedOver(goOn)
      ensures OpenCalls(log.events) == old(OpenCalls(log.events))
    {
      TakeOutput(output);
      var late := Expired();
      if late {
        return false;
      }
      goOn := Evaluated(output);
    }

    method TakeOutput(output: string)
      requires Going() && state.status == Executing
      modifies state`outputs, state`status, state`path
      ensures Going() && state.status == Evaluating
    {
      state.outputs := state.outputs + [output];
      Move(Evaluating);
    }

    method Evaluated(output: string) returns (goOn: bool)
      requires Going() && state.status == Evaluating && Paid()
      modifies this`asked, this`gate, log, budget, state
      ensures old(log.events) <= log.events && state.iteration == old(state.iteration)
      ensures PassedOver(goOn)
      ensures OpenCalls(log.events) == old(OpenCalls(log.events))
    {
      var q, e := AskAndEvaluate(output);
      goOn := NoteAndDecide(q, e);
    }

    method NoteAndDecide(q: Question, e: Evaluation) returns (goOn: bool)
      requires Going() && state.status == Evaluating && Paid() && Fits(q, e)
      modifies this`asked, this`gate, log, budget, state
      ensures Ready() && old(log.events) <= log.events && state.iteration == old(state.iteration)
      ensures goOn <==> state.stopReason.None?
      ensures goOn ==> Between() && state.iteration < state.maxIterations
      ensures state.stopReason == Some(Passed) ==> PassedRightly()
      ensures StopFits()
      ensures asked == old(asked) + [q] && state.evaluations == old(state.evaluations) + [e]
      ensures OpenCalls(log.events) == old(OpenCalls(log.events))
    {
      Note(q, e);
      ghost var look;
      goOn, look := Decide(q, e);
    }

    // --------------------------------------------------------------- a whole run

    /** One host reader: checked before, charged for what it gathered. */
    method ReadOne() returns (r: Outcome<HostError>)
      requires Going() && budget != null
      modifies budget
      ensures Going()
    {
      var checked := budget.Check();
      if checked.Raised? {
        return Raised(Limit(checked.error));
      }
      var answer := AskHost();
      if answer.Err? {
        return Raised(answer.error);
      }
      var bytes: nat := *;
      var charged := budget.ChargeOutput(bytes);
      return if charged.Raised? then Raised(Limit(charged.error)) else Returned;
    }

    method Gather()
      requires Going() && state.status == Observing
      modifies budget, state`status, state`path, state`stopReason
      ensures Ready()
      ensures state.stopReason.None? ==> state.status == Observing && state.iteration == old(state.iteration)
      ensures state.stopReason.Some? ==> IsInterruption(state.stopReason)
    {
      for i := 0 to config.readers
        invariant Going() && state.status == Observing
      {
        var read := ReadOne();
        if read.Raised? {
          HaltFor(read.error);
          return;
        }
      }
    }

    /** The first read, before the loop, when the host asks for it and the run holds nothing. */
    method FirstRead()
      requires Going() && state.status == Observing
      modifies log, budget, state`status, state`path, state`stopReason, state`base, state`rounds
      ensures Ready() && old(log.events) <= log.events
      ensures state.stopReason.None? ==> state.status == Observing && state.iteration == old(state.iteration)
      ensures state.stopReason.Some? ==> IsInterruption(state.stopReason)
      ensures OpenCalls(log.events) == old(OpenCalls(log.events))
    {
      if config.readFirst && config.hasObserver && state.base.Some? && state.base.value.obs == [] {
        var patterns: seq<string> := *;
        ghost var round;
        var outcome;
        outcome, round := ObserveRound(patterns);
      }
    }

    /**
     Pass after pass. A pass only goes on while another is left, so the stop the source keeps
     for falling out of the loop is never taken: the bound ends a run through a decision about
     its last answer.
     */
    method Loop()
      requires Between() && state.iteration < state.maxIterations
      modifies this`asked, this`gate, log, budget, gateway, state
      ensures Ready() && old(log.events) <= log.events && state.stopReason.Some?
      ensures state.stopReason == Some(Passed) ==> PassedRightly() && LastAnswers()
      ensures StopFits()
      ensures CallsSettled(old(OpenCalls(log.events)))
    {
      while state.iteration < state.maxIterations
        invariant Between() && old(log.events) <= log.events && state.iteration < state.maxIterations
        invariant CallsClosed(old(OpenCalls(log.events)))
        decreases state.maxIterations - state.iteration
      {
        var goOn := Pass();
        if !goOn {
          return;
        }
      }
      assert false;
    }

    method Prepare()
      requires Going() && state.status == New
      modifies log, budget, state`status, state`path, state`stopReason, state`base, state`rounds
      ensures Ready() && old(log.events) <= log.events
      ensures state.stopReason.None? ==> state.status == Observing && state.iteration == old(state.iteration)
      ensures state.stopReason.Some? ==> IsInterruption(state.stopReason)
      ensures OpenCalls(log.events) == old(OpenCalls(log.events))
    {
      Move(Observing);
      Gather();
      if state.stopReason.Some? {
        return;
      }
      var late := Expired();
      if late {
        return;
      }
      FirstRead();
    }

    /**
     A run that has ended, and why: along a legal path, within its iterations, in the status
     its reason has, for a reason its last evaluation bears out, and passed only rightly.
     */
    ghost predicate Ended()
      reads this, state, budget
    {
      && state.Valid() && state.stopReason.Some? && BaseValid(state.base) && StopFits()
      && (state.stopReason == Some(Passed) ==> PassedRightly() && LastAnswers())
    }

    method Work()
      requires Going() && state.status == New && state.iteration < state.maxIterations
      modifies this`asked, this`gate, log, budget, gateway, state
      ensures Ready() && Ended() && old(log.events) <= log.events
      ensures CallsSettled(old(OpenCalls(log.events)))
    {
      Prepare();
      if state.stopReason.None? {
        Loop();
      }
    }

    /** Every exit records its stop. */
    method RecordStop()
      requires Ready() && Ended()
      modifies log
      ensures Ended() && OpenCalls(log.events) == old(OpenCalls(log.events))
      ensures ClosesWith(log.runId, old(log.events), log.events, state.stopReason.value)
    {
      AppendStop(state.stopReason.value);
    }

    method Finish(ghost before: set<string>)
      requires Ready() && Ended() && CallsSettled(before)
      modifies log
      ensures Ended() && CallsSettled(before)
      ensures ClosesWith(log.runId, old(log.events), log.events, state.stopReason.value)
    {
      ghost var worked := log.events;
      RecordStop();
      SettledStays(worked, log.events, ReadsSchemas(), state.stopReason, before, config.modelIsIdempotent);
    }

    method AppendStop(reason: StopReason)
      requires Live()
      modifies log
      ensures ClosesWith(log.runId, old(log.events), log.events, reason)
      ensures OpenCalls(log.events) == old(OpenCalls(log.events))
    {
      ghost var before := log.events;
      log.Append(state.iteration, StopBody(reason));
      assert log.events[..|log.events| - 1] == before;
    }

    /**
     A whole run, from `new` to its one recorded stop. It always ends, within its iterations,
     in the status its reason has, along a legal path, whatever the host does.
     */
    method Execute()
      requires Going() && state.status == New && state.iteration < state.maxIterations
      modifies this`asked, this`gate, log, budget, gateway, state
      ensures Ended()
      ensures ClosesWith(log.runId, old(log.events), log.events, state.stopReason.value)
      ensures CallsSettled(old(OpenCalls(log.events)))
    {
      ghost var before := OpenCalls(log.events);
      Work();
      Finish(before);
    }

    /**
     A review that passed: its findings are what the sources said, the gate had nothing against
     it, and nothing it had read, cited or not, had moved since.
     */
    lemma PassedReviewStands()
      requires PassedRightly() && LastAnswers() && BaseValid(state.base)
      requires config.route == RepoReview && state.base.Some?
      ensures var q := asked[|asked| - 1];
              && Established(q) && q.sources.value.obs == state.base.value.obs
              && gate.IsConsistent(state.base.value.obs)
              && forall i | 0 <= i < |state.base.value.obs| ::
                   state.base.value.obs[i].sourceType == LocalFile
    {
      var q, e := asked[|asked| - 1], state.evaluations[|state.evaluations| - 1];
      PassedReviewIsEstablished(q);
    }
  }
}
