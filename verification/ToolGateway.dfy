/**
 The boundary every tool call goes through.

 A handler is host code: it may call back into the gateway as often as it likes, return
 anything or raise. What bounds it is the budget it shares with everything above it.
 */
module ToolGateways {
  import opened Wrappers
  import opened Json
  import opened ToolSchema
  import opened Budget
  import opened EventLogs
  import opened Approval

  datatype Capability = ReadCapability | WriteCapability | NetworkCapability

  /**
   The operation a write tool says its arguments come to, or an exception. It may look at the
   world first, at the head of a repository say, so it is given the moment as well.
   */
  type Describe = (Json, int) -> Option<Operation>

  datatype Tool = Tool(
    capability: Capability, routes: set<string>, idempotent: Option<bool>, maxAttempts: nat,
    isolated: bool, inputSchema: seq<Field>, outputSchema: seq<Field>, describe: Option<Describe>)
  {
    /** What registration checks. */
    predicate Registrable() {
      routes != {} && maxAttempts >= 1
      && (maxAttempts > 1 ==> idempotent == Some(true))
      && (capability == WriteCapability ==> maxAttempts == 1)
    }

    predicate IsIdempotent() {
      idempotent == Some(true) || (idempotent == None && capability == ReadCapability)
    }

    predicate Allows(route: string) { "*" in routes || route in routes }
  }

  /** What a caller hands over: nothing, something that is no string-keyed object, or one. */
  datatype Arguments = Absent | NotAnObject | Object(fields: seq<Field>)

  datatype ToolError =
    | OutOfBudget(budgetError: BudgetError)
    | EmptyRoute | ToolDenied | BadArguments | SchemaMismatch | UnsupportedSchema
    | HandlerRaised | NotJson | NotApproved(approvalError: ApprovalError)

  /** One run of a handler: which tool, and how many handlers were running around it. */
  datatype Ran = Ran(name: string, depth: nat)

  /** What a call into the gateway can have changed. */
  datatype Moment = Moment(toolCalls: nat, ran: nat, events: History, openCalls: set<string>)
  {
    function Closing(call: string): Moment {
      this.(openCalls := openCalls - {call})
    }
  }

  /**
   Each handler that ran took one call of the quota, the log was only appended to, and no
   call was left open beyond those that were, when every schema could be read.
   */
  predicate Since(before: Moment, after: Moment, readable: bool) {
    && after.toolCalls - before.toolCalls == after.ran - before.ran >= 0
    && before.events <= after.events
    && before.openCalls <= after.openCalls
    && (readable ==> after.openCalls == before.openCalls)
  }

  /** At some moment the tool describes these arguments as this operation, its own. */
  ghost predicate Describes(name: string, tool: Tool, arguments: Json, operation: Operation) {
    tool.describe.Some? && operation.tool == name
    && exists moment :: DescribedAt(tool.describe.value, arguments, moment, operation)
  }

  predicate DescribedAt(describe: Describe, arguments: Json, moment: int, operation: Operation) {
    describe(arguments, moment) == Some(operation)
  }

  /** One `InvokeWrite`, as the approvals see it: nothing, or one write of these very arguments. */
  ghost predicate WriteStep(
      before: State, after: State, name: string, tool: Tool, arguments: Json, token: Token, moment: Approval.Now)
  {
    after == before
    || exists operation: Operation, allowed: bool ::
         Describes(name, tool, arguments, operation)
         && after == After(before, Write(token, operation, arguments, moment, allowed))
  }

  lemma ByWriting(
      before: State, after: State, name: string, tool: Tool, arguments: Json, token: Token, moment: Approval.Now,
      operation: Operation, allowed: bool)
    requires Describes(name, tool, arguments, operation)
    requires after == After(before, Write(token, operation, arguments, moment, allowed))
    ensures WriteStep(before, after, name, tool, arguments, token, moment)
  {
  }

  /** So what every sequence of approval steps keeps, every use of the gateway keeps. */
  lemma WriteKeepsApprovals(
      before: State, after: State, name: string, tool: Tool, arguments: Json, token: Token, moment: Approval.Now)
    requires Inv(before) && WriteStep(before, after, name, tool, arguments, token, moment)
    ensures Inv(after) && |before.executions| <= |after.executions| <= |before.executions| + 1
  {
    if after != before {
      var operation: Operation, allowed: bool :|
        Describes(name, tool, arguments, operation)
        && after == After(before, Write(token, operation, arguments, moment, allowed));
      StepKeeps(before, Write(token, operation, arguments, moment, allowed));
    }
  }

  /** Every handler ran on arguments its tool describes as the operation that was granted. */
  ghost predicate RanAsDescribed(s: State, tools: map<string, Tool>) {
    forall i | 0 <= i < |s.executions| :: ExecutionFits(s, tools, s.executions[i])
  }

  ghost predicate ExecutionFits(s: State, tools: map<string, Tool>, e: Execution) {
    && e.approval < |s.pending| && e.operation.tool in tools
    && Describes(e.operation.tool, tools[e.operation.tool], e.arguments, s.pending[e.approval].operation)
  }

  /** An approval step leaves what was asked for as it was. */
  lemma OperationsStay(s: State, step: Step, id: nat)
    requires id < |s.pending|
    ensures id < |After(s, step).pending| && After(s, step).pending[id].operation == s.pending[id].operation
  {
  }

  /** A write goes through the gateway, which runs its tool on what the tool described. */
  ghost predicate IsDescribed(step: Step, tools: map<string, Tool>) {
    step.Write? ==>
      step.operation.tool in tools
      && Describes(step.operation.tool, tools[step.operation.tool], step.arguments, step.operation)
  }

  lemma NewExecutionFits(before: State, step: Step, tools: map<string, Tool>)
    requires Inv(before) && step.Write? && IsDescribed(step, tools)
    ensures var after := After(before, step);
            |after.executions| > |before.executions| ==>
              ExecutionFits(after, tools, after.executions[|after.executions| - 1])
  {
    StepKeeps(before, step);
    var after := After(before, step);
    if |after.executions| > |before.executions| {
      assert ExecutionOk(after.pending, after.executions[|after.executions| - 1]);
    }
  }

  lemma StepKeepsDescriptions(before: State, step: Step, tools: map<string, Tool>)
    requires Inv(before) && RanAsDescribed(before, tools) && IsDescribed(step, tools)
    ensures RanAsDescribed(After(before, step), tools)
  {
    var after := After(before, step);
    if step.Write? { NewExecutionFits(before, step, tools); }
    forall i | 0 <= i < |after.executions| ensures ExecutionFits(after, tools, after.executions[i]) {
      if i < |before.executions| {
        assert ExecutionFits(before, tools, before.executions[i]);
        OperationsStay(before, step, before.executions[i].approval);
      }
    }
  }

  lemma WriteKeepsDescriptions(
      before: State, after: State, tools: map<string, Tool>, name: string, arguments: Json, token: Token,
      moment: Approval.Now)
    requires Inv(before) && RanAsDescribed(before, tools) && name in tools
    requires WriteStep(before, after, name, tools[name], arguments, token, moment)
    ensures RanAsDescribed(after, tools)
  {
    if after != before {
      var operation: Operation, allowed: bool :|
        Describes(name, tools[name], arguments, operation)
        && after == After(before, Write(token, operation, arguments, moment, allowed));
      StepKeepsDescriptions(before, Write(token, operation, arguments, moment, allowed), tools);
    }
  }

  ghost predicate AllDescribed(steps: seq<Step>, tools: map<string, Tool>) {
    forall i | 0 <= i < |steps| :: IsDescribed(steps[i], tools)
  }

  /**
   Over any sequence of requests, answers and writes through the gateway: whatever arguments a
   write handler ran on, its tool describes them as the operation a person granted.
   */
  lemma {:induction false} HandlersRanAsDescribed(steps: seq<Step>, tools: map<string, Tool>)
    requires AllFresh(steps) && AllDescribed(steps, tools)
    ensures RanAsDescribed(Approval.Run(steps), tools)
  {
    if steps != [] {
      var init, last := steps[..|steps| - 1], steps[|steps| - 1];
      assert forall i | 0 <= i < |init| :: init[i] == steps[i];
      HandlersRanAsDescribed(init, tools);
      EveryRunKeeps(init);
      assert IsDescribed(steps[|steps| - 1], tools);
      StepKeepsDescriptions(Approval.Run(init), last, tools);
    }
  }

  /** The outcome a history ends with, when its last record is one. */
  function LastOutcome(h: History): Option<CallOutcome> {
    if h != [] && h[|h| - 1].body.CallFinished? then Some(h[|h| - 1].body.outcome) else None
  }

  class ToolGateway {
    const budget: RunBudget
    const tools: map<string, Tool>
    const log: EventLog
    const approvals: ApprovalAuthority?
    var route: string
    /** The handlers that have run, kept for the proofs: read tools and write tools. */
    ghost var ran: seq<Ran>
    ghost var wrote: seq<Ran>

    constructor (budget: RunBudget, tools: map<string, Tool>, log: EventLog, approvals: ApprovalAuthority?)
      requires forall name | name in tools :: tools[name].Registrable()
      ensures this.budget == budget && this.tools == tools && this.log == log && this.approvals == approvals
      ensures ran == [] && wrote == []
    {
      this.budget, this.tools, this.log, this.approvals := budget, tools, log, approvals;
      route, ran, wrote := "", [], [];
    }

    /** A log that is being written: started, acceptable, not stopped. */
    ghost predicate Live()
      reads log
    {
      log.Accepted() && log.events != [] && !HasStop(log.events)
    }

    /**
     Only read tools run through `Invoke` and only write tools through `InvokeWrite`; never
     more of them than the run's quota, so never one inside more of them either.
     */
    ghost predicate RunsAreBounded()
      reads this, budget
    {
      && |ran| + |wrote| <= budget.toolCalls
      && (forall x | x in ran :: x.name in tools && tools[x.name].capability == ReadCapability
                                 && x.depth < budget.limits.toolCalls)
      && (forall x | x in wrote :: x.name in tools && tools[x.name].capability == WriteCapability
                                   && x.depth < budget.limits.toolCalls)
    }

    ghost predicate Valid()
      reads this, budget, log
    {
      && budget.Valid() && Live() && RunsAreBounded()
      && forall name | name in tools :: tools[name].Registrable()
    }

    /** No schema of a tool's input is one the validator cannot read. */
    ghost predicate SchemasReadable() {
      forall name, v | name in tools :: ValidateSchema(v, tools[name].inputSchema) != BadSchema
    }

    ghost function Now(): (m: Moment)
      reads this, budget, log
    {
      Moment(budget.toolCalls, |ran| + |wrote|, log.events, Started(log.events) - Finished(log.events))
    }

    /** What a call needs before its handler runs. */
    predicate Permits(name: string, arguments: Arguments)
      reads this`route
    {
      && name in tools && tools[name].capability == ReadCapability && tools[name].Allows(route)
      && !arguments.NotAnObject?
      && ValidateSchema(Obj(if arguments.Object? then arguments.fields else []), tools[name].inputSchema)
         == Verdict.Valid
    }

    /**
     Run one read tool, with retries. Every handler that runs, here or below, has reserved
     a tool call first, and only read tools run; nothing runs for a call that is not permitted.
     Every call that was started is finished, unless a schema could not be read, and a value
     comes back exactly from a call recorded `ok`, in the shape its tool declares.
     */
    method Invoke(name: string, arguments: Arguments, ghost depth: nat)
        returns (r: Result<Json, ToolError>)
      requires Valid() && depth <= budget.toolCalls
      modifies this`ran, budget`toolCalls, budget`outputBytes, log
      ensures Valid()
      ensures Since(old(Now()), Now(), SchemasReadable())
      ensures |ran| + |wrote| <= budget.limits.toolCalls
      ensures !Permits(name, arguments) ==> r.Err? && ran == old(ran)
      ensures r.Ok? ==> ValidateSchema(r.value, tools[name].outputSchema) == Verdict.Valid
      ensures r.Ok? ==> LastOutcome(log.events) == Some(CallOk)
      ensures r.Err? && log.events != old(log.events) ==> LastOutcome(log.events) != Some(CallOk)
      decreases budget.limits.toolCalls - budget.toolCalls, 3
    {
      var checked := budget.Check();
      if checked.Raised? {
        return Err(OutOfBudget(checked.error));
      }
      var call := Begin(if name in tools then Some(tools[name]) else None);
      r := Dispatch(name, arguments, call, depth);
    }

    method Dispatch(name: string, arguments: Arguments, call: string, ghost depth: nat)
        returns (r: Result<Json, ToolError>)
      requires Valid() && depth <= budget.toolCalls && call in Now().openCalls && LastOutcome(log.events).None?
      modifies this`ran, budget`toolCalls, budget`outputBytes, log
      ensures Valid() && Since(old(Now()).Closing(call), Now(), SchemasReadable())
      ensures !Permits(name, arguments) ==> r.Err? && ran == old(ran)
      ensures r.Ok? ==> ValidateSchema(r.value, tools[name].outputSchema) == Verdict.Valid
      ensures r.Ok? <==> LastOutcome(log.events) == Some(CallOk)
      decreases budget.limits.toolCalls - budget.toolCalls, 2
    {
      var denied := Denial(name, arguments);
      if denied.None? {
        r := Attempts(name, tools[name], call, depth);
      } else if denied.value == UnsupportedSchema {
        r := Err(UnsupportedSchema);
      } else {
        r := Refuse(call, denied.value);
      }
    }

    /** The checks before a handler, in order; an unreadable schema raises where the rest deny. */
    function Denial(name: string, arguments: Arguments): (e: Option<ToolError>)
      reads this`route
      ensures e.None? <==> Permits(name, arguments)
      ensures e == Some(UnsupportedSchema) ==> !SchemasReadable()
    {
      if name !in tools then Some(ToolDenied)
      else if tools[name].capability != ReadCapability || !tools[name].Allows(route) then Some(ToolDenied)
      else if arguments.NotAnObject? then Some(BadArguments)
      else
        match ValidateSchema(Obj(if arguments.Object? then arguments.fields else []), tools[name].inputSchema)
        case Valid => None
        case Mismatch => Some(SchemaMismatch)
        case BadSchema => Some(UnsupportedSchema)
    }

    method Begin(tool: Option<Tool>) returns (call: string)
      requires Valid()
      modifies log
      ensures Valid() && call in Now().openCalls && Now().Closing(call).openCalls == old(Now()).openCalls
      ensures Now() == old(Now()).(events := log.events, openCalls := Now().openCalls)
      ensures old(log.events) <= log.events && log.events[|log.events| - 1].body.CallStarted?
    {
      call := log.StartCall(0, ToolCall, tool.Some? && tool.value.IsIdempotent());
    }

    method End(call: string, outcome: CallOutcome)
      requires Valid() && call in Now().openCalls
      modifies log
      ensures Valid() && Since(old(Now()).Closing(call), Now(), true)
      ensures LastOutcome(log.events) == Some(outcome) && log.events != old(log.events)
    {
      var finished := log.FinishCall(call, outcome, 0);
      assert finished.Returned?;
    }

    method Refuse(call: string, error: ToolError) returns (r: Result<Json, ToolError>)
      requires Valid() && call in Now().openCalls
      modifies log
      ensures Valid() && Since(old(Now()).Closing(call), Now(), true) && r == Err(error)
      ensures LastOutcome(log.events) == Some(CallDenied)
    {
      End(call, CallDenied);
      r := Err(error);
    }

    method Attempts(name: string, tool: Tool, first: string, ghost depth: nat)
        returns (r: Result<Json, ToolError>)
      requires Valid() && depth <= budget.toolCalls
      requires name in tools && tools[name] == tool && tool.capability == ReadCapability
      requires first in Now().openCalls
      modifies this`ran, budget`toolCalls, budget`outputBytes, log
      ensures Valid()
      ensures Since(old(Now()).Closing(first), Now(), SchemasReadable())
      ensures r.Ok? ==> ValidateSchema(r.value, tool.outputSchema) == Verdict.Valid
      ensures LastOutcome(log.events).Some? && (r.Ok? <==> LastOutcome(log.events) == Some(CallOk))
      decreases budget.limits.toolCalls - budget.toolCalls, 1
    {
      var call := first;
      var attempt := 1;
      while true
        invariant 1 <= attempt <= tool.maxAttempts
        invariant Valid() && depth <= budget.toolCalls && call in Now().openCalls
        invariant Since(old(Now()).Closing(first), Now().Closing(call), SchemasReadable())
        decreases tool.maxAttempts - attempt
      {
        var retryable;
        r, retryable := Attempt(name, tool, call, depth);
        if r.Ok? || !(attempt < tool.maxAttempts && retryable) {
          return;
        }
        attempt := attempt + 1;
        call := Begin(Some(tool));
      }
    }

    method Attempt(name: string, tool: Tool, call: string, ghost depth: nat)
        returns (r: Result<Json, ToolError>, retryable: bool)
      requires Valid() && depth <= budget.toolCalls
      requires name in tools && tools[name] == tool && tool.capability == ReadCapability
      requires call in Now().openCalls
      modifies this`ran, budget`toolCalls, budget`outputBytes, log
      ensures Valid()
      ensures Since(old(Now()).Closing(call), Now(), SchemasReadable())
      ensures r.Ok? ==> ValidateSchema(r.value, tool.outputSchema) == Verdict.Valid
      ensures LastOutcome(log.events).Some? && (r.Ok? <==> LastOutcome(log.events) == Some(CallOk))
      decreases budget.limits.toolCalls - budget.toolCalls, 0
    {
      retryable := false;
      var reserved := budget.ReserveTool();
      if reserved.Raised? {
        r := Refuse(call, OutOfBudget(reserved.error));
        return;
      }
      ran := ran + [Ran(name, depth)];
      r := Execute(tool, depth);
      if r.Err? { retryable := *; }
      End(call, if r.Ok? then CallOk else CallFailed);
    }

    /** The handler of a call already reserved: nested calls, then a result that is checked. */
    method Execute(tool: Tool, ghost depth: nat) returns (r: Result<Json, ToolError>)
      requires Valid() && depth < budget.toolCalls
      modifies this`ran, budget`toolCalls, budget`outputBytes, log
      ensures Valid()
      ensures Since(old(Now()), Now(), SchemasReadable())
      ensures r.Ok? ==> ValidateSchema(r.value, tool.outputSchema) == Verdict.Valid
      decreases budget.limits.toolCalls - budget.toolCalls, 4
    {
      var nested: nat := *;
      while nested > 0 && !tool.isolated
        invariant Valid() && depth < budget.toolCalls
        invariant Since(old(Now()), Now(), SchemasReadable())
      {
        var inner: string := *;
        var arguments: Arguments := *;
        var answer := Invoke(inner, arguments, depth + 1);
        nested := nested - 1;
      }
      var returned: Result<Json, ToolError> := *;
      if !returned.Ok? {
        return Err(HandlerRaised);
      }
      r := CheckResult(tool, returned.value);
    }

    method CheckResult(tool: Tool, returned: Json) returns (r: Result<Json, ToolError>)
      modifies budget`outputBytes
      ensures r.Ok? ==> r.value == returned && ValidateSchema(returned, tool.outputSchema) == Verdict.Valid
      ensures r.Ok? ==> budget.outputBytes <= budget.limits.outputBytes
    {
      var checked := budget.Check();
      if checked.Raised? {
        return Err(OutOfBudget(checked.error));
      }
      var isJson: bool := *;
      if !isJson {
        return Err(NotJson);
      }
      match ValidateSchema(returned, tool.outputSchema) {
        case Mismatch => return Err(SchemaMismatch);
        case BadSchema => return Err(UnsupportedSchema);
        case Valid =>
          var bytes: nat := *;
          var charged := budget.ChargeOutput(bytes);
          return if charged.Returned? then Ok(returned) else Err(OutOfBudget(charged.error));
      }
    }

    method SetRoute(chosen: string) returns (r: Outcome<ToolError>)
      modifies this`route
      ensures r.Returned? <==> chosen != ""
      ensures route == if r.Returned? then chosen else old(route)
    {
      if chosen == "" {
        return Raised(EmptyRoute);
      }
      route := chosen;
      return Returned;
    }

    // ------------------------------------------------------------------ writes

    /** The copy of the arguments that is logged, described and run. */
    function Copied(arguments: Arguments): Json {
      Obj(if arguments.Object? then arguments.fields else [])
    }

    /**
     Run one write tool, once, if the token approves exactly this call. A refusal before the
     token is looked at leaves the approvals as they were; a token is spent even when the
     budget then refuses; and the handler runs only when both said yes, on the arguments that
     were described. It and what it calls take from the quota and close their calls as reads do.
     */
    method InvokeWrite(name: string, arguments: Arguments, token: Token, moment: Approval.Now)
        returns (r: Result<Json, ToolError>)
      requires Valid()
      modifies this`ran, this`wrote, budget`toolCalls, budget`outputBytes, log, approvals
      ensures Valid() && Since(old(Now()), Now(), SchemasReadable())
      ensures name !in tools || approvals == null ==> r.Err? && wrote == old(wrote)
      ensures approvals != null && name !in tools ==> approvals.Snapshot() == old(approvals.Snapshot())
      ensures approvals != null && name in tools ==>
                && WriteStep(old(approvals.Snapshot()), approvals.Snapshot(), name, tools[name], Copied(arguments),
                             token, moment)
                && |wrote| - |old(wrote)| == |approvals.executions| - |old(approvals.executions)|
                && (r.Ok? ==> |approvals.executions| == |old(approvals.executions)| + 1)
      ensures r.Ok? ==> name in tools && tools[name].capability == WriteCapability
                        && ValidateSchema(r.value, tools[name].outputSchema) == Verdict.Valid
                        && LastOutcome(log.events) == Some(CallOk)
    {
      var checked := budget.Check();
      if checked.Raised? {
        return Err(OutOfBudget(checked.error));
      }
      var call := Begin(if name in tools then Some(tools[name]) else None);
      r := DispatchWrite(name, arguments, call, token, moment);
    }

    method DispatchWrite(name: string, arguments: Arguments, call: string, token: Token, moment: Approval.Now)
        returns (r: Result<Json, ToolError>)
      requires Valid() && call in Now().openCalls
      modifies this`ran, this`wrote, budget`toolCalls, budget`outputBytes, log, approvals
      ensures Valid() && Since(old(Now()).Closing(call), Now(), SchemasReadable())
      ensures name !in tools || approvals == null ==> r.Err? && wrote == old(wrote)
      ensures approvals != null && name !in tools ==> approvals.Snapshot() == old(approvals.Snapshot())
      ensures approvals != null && name in tools ==>
                && WriteStep(old(approvals.Snapshot()), approvals.Snapshot(), name, tools[name], Copied(arguments),
                             token, moment)
                && |wrote| - |old(wrote)| == |approvals.executions| - |old(approvals.executions)|
                && (r.Ok? ==> |approvals.executions| == |old(approvals.executions)| + 1)
      ensures r.Ok? ==> name in tools && tools[name].capability == WriteCapability
                        && ValidateSchema(r.value, tools[name].outputSchema) == Verdict.Valid
                        && LastOutcome(log.events) == Some(CallOk)
    {
      var isJson: bool := *;
      var denied := WriteDenial(name, arguments, isJson);
      if denied.None? {
        r := Approved(name, tools[name], call, Copied(arguments), token, moment);
      } else if denied.value == UnsupportedSchema {
        r := Err(UnsupportedSchema);
      } else {
        r := Refuse(call, denied.value);
      }
    }

    /** The checks before a token is looked at, in order. */
    function WriteDenial(name: string, arguments: Arguments, isJson: bool): (e: Option<ToolError>)
      reads this`route
      ensures e.None? ==> name in tools && tools[name].capability == WriteCapability
                          && tools[name].describe.Some? && approvals != null
      ensures e == Some(UnsupportedSchema) ==> !SchemasReadable()
    {
      if name !in tools then Some(ToolDenied)
      else if tools[name].capability != WriteCapability || tools[name].describe.None? || approvals == null
              || !tools[name].Allows(route) then Some(ToolDenied)
      else if !arguments.Object? || !isJson then Some(BadArguments)
      else
        match ValidateSchema(Obj(arguments.fields), tools[name].inputSchema)
        case Valid => None
        case Mismatch => Some(SchemaMismatch)
        case BadSchema => Some(UnsupportedSchema)
    }

    method Approved(
        name: string, tool: Tool, call: string, arguments: Json, token: Token, moment: Approval.Now)
        returns (r: Result<Json, ToolError>)
      requires Valid() && approvals != null && call in Now().openCalls
      requires name in tools && tools[name] == tool && tool.capability == WriteCapability && tool.describe.Some?
      modifies this`ran, this`wrote, budget`toolCalls, budget`outputBytes, log, approvals
      ensures Valid() && Since(old(Now()).Closing(call), Now(), SchemasReadable())
      ensures WriteStep(old(approvals.Snapshot()), approvals.Snapshot(), name, tool, arguments, token, moment)
      ensures |wrote| - |old(wrote)| == |approvals.executions| - |old(approvals.executions)|
      ensures r.Ok? ==> |approvals.executions| == |old(approvals.executions)| + 1
      ensures r.Ok? ==> ValidateSchema(r.value, tool.outputSchema) == Verdict.Valid
      ensures LastOutcome(log.events).Some? && (r.Ok? <==> LastOutcome(log.events) == Some(CallOk))
    {
      var described := DescribeNow(name, tool, arguments);
      if described.None? {
        r := Refuse(call, HandlerRaised);
        return;
      }
      var spent := Spend(name, tool, described.value, arguments, token, moment);
      if spent.Raised? {
        r := Refuse(call, spent.error);
        return;
      }
      r := RunWrite(tool, call);
    }

    method RunWrite(tool: Tool, call: string) returns (r: Result<Json, ToolError>)
      requires Valid() && 0 < budget.toolCalls && call in Now().openCalls
      modifies this`ran, budget`toolCalls, budget`outputBytes, log
      ensures Valid() && Since(old(Now()).Closing(call), Now(), SchemasReadable())
      ensures r.Ok? ==> ValidateSchema(r.value, tool.outputSchema) == Verdict.Valid
      ensures LastOutcome(log.events).Some? && (r.Ok? <==> LastOutcome(log.events) == Some(CallOk))
    {
      r := Execute(tool, 0);
      End(call, if r.Ok? then CallOk else CallFailed);
    }

    /** The tool is asked, at whatever moment this is, and must name itself. */
    method DescribeNow(name: string, tool: Tool, arguments: Json) returns (described: Option<Operation>)
      requires tool.describe.Some?
      ensures described.Some? ==> Describes(name, tool, arguments, described.value)
    {
      var moment: int := *;
      var describe: Describe := tool.describe.value;
      described := describe(arguments, moment);
      assert described.Some? ==> DescribedAt(describe, arguments, moment, described.value);
      if described.Some? && described.value.tool != name {
        described := None;
      }
    }

    /** Spend the token, then reserve the call; the handler is now certain to run. */
    method Spend(
        name: string, tool: Tool, operation: Operation, arguments: Json, token: Token, moment: Approval.Now)
        returns (r: Outcome<ToolError>)
      requires Valid() && approvals != null && Describes(name, tool, arguments, operation)
      requires name in tools && tools[name] == tool && tool.capability == WriteCapability
      modifies this`wrote, budget`toolCalls, approvals
      ensures Valid() && (r.Returned? ==> budget.toolCalls > 0)
      ensures budget.toolCalls - old(budget.toolCalls) == |wrote| - |old(wrote)|
      ensures WriteStep(old(approvals.Snapshot()), approvals.Snapshot(), name, tool, arguments, token, moment)
      ensures wrote == old(wrote) + if r.Returned? then [Ran(name, 0)] else []
      ensures |approvals.executions| == |old(approvals.executions)| + if r.Returned? then 1 else 0
    {
      ghost var before := approvals.Snapshot();
      var spent := approvals.ConsumeToken(token, operation, moment);
      if spent.Err? {
        ByWriting(before, approvals.Snapshot(), name, tool, arguments, token, moment, operation, false);
        return Raised(NotApproved(spent.error));
      }
      var reserved := budget.ReserveTool();
      if reserved.Raised? {
        ByWriting(before, approvals.Snapshot(), name, tool, arguments, token, moment, operation, false);
        return Raised(OutOfBudget(reserved.error));
      }
      wrote := wrote + [Ran(name, 0)];
      approvals.Ran(Execution(spent.value, operation, arguments, moment.monotonic, moment.wall, moment.head.value));
      ByWriting(before, approvals.Snapshot(), name, tool, arguments, token, moment, operation, true);
      return Returned;
    }
  }
}
