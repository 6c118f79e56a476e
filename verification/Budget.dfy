/**
 One budget for a whole run, shared by retries, adapters and nested tool calls.

 The clock and the caller's cancellation are asked at every boundary and may answer
 anything, so `Check` is free to refuse at any time.
 */
module Budget {
  import opened Wrappers

  datatype Limits = Limits(modelCalls: nat, toolCalls: nat, tokens: nat, outputBytes: nat)

  datatype Quota = WallSeconds | ModelCalls | ToolCalls | Tokens | OutputBytes

  datatype BudgetError = RunCancelled | BudgetExceeded(quota: Quota) | UnmeteredUsage

  class RunBudget {
    const limits: Limits
    var modelCalls: nat
    var toolCalls: nat
    var tokens: nat
    var outputBytes: nat

    constructor (limits: Limits)
      ensures this.limits == limits && Valid() && WithinTotals()
      ensures modelCalls == toolCalls == tokens == outputBytes == 0
    {
      this.limits := limits;
      modelCalls, toolCalls, tokens, outputBytes := 0, 0, 0, 0;
    }

    /** Calls are counted before they are made, so their quotas are never overrun. */
    ghost predicate Valid()
      reads this
    {
      modelCalls <= limits.modelCalls && toolCalls <= limits.toolCalls
    }

    /** Tokens and output are counted after the fact: the charge that overruns them raises. */
    ghost predicate WithinTotals()
      reads this
    {
      tokens <= limits.tokens && outputBytes <= limits.outputBytes
    }

    method Check() returns (r: Outcome<BudgetError>)
      ensures r.Raised? ==> r.error in {RunCancelled, BudgetExceeded(WallSeconds)}
    {
      var cancelled: bool := *;
      if cancelled {
        return Raised(RunCancelled);
      }
      var late: bool := *;
      if late {
        return Raised(BudgetExceeded(WallSeconds));
      }
      return Returned;
    }

    method ReserveModel() returns (r: Outcome<BudgetError>)
      requires Valid()
      modifies this`modelCalls
      ensures Valid()
      ensures modelCalls == old(modelCalls) + if r.Returned? then 1 else 0
      ensures r.Raised? ==> r.error != UnmeteredUsage
      ensures r == Raised(BudgetExceeded(ModelCalls)) ==> modelCalls == limits.modelCalls
    {
      var checked := Check();
      if checked.Raised? {
        return checked;
      }
      if modelCalls >= limits.modelCalls {
        return Raised(BudgetExceeded(ModelCalls));
      }
      modelCalls := modelCalls + 1;
      return Returned;
    }

    method ReserveTool() returns (r: Outcome<BudgetError>)
      requires Valid()
      modifies this`toolCalls
      ensures Valid()
      ensures toolCalls == old(toolCalls) + if r.Returned? then 1 else 0
      ensures r.Raised? ==> r.error != UnmeteredUsage
      ensures r == Raised(BudgetExceeded(ToolCalls)) ==> toolCalls == limits.toolCalls
    {
      var checked := Check();
      if checked.Raised? {
        return checked;
      }
      if toolCalls >= limits.toolCalls {
        return Raised(BudgetExceeded(ToolCalls));
      }
      toolCalls := toolCalls + 1;
      return Returned;
    }

    /** A provider that reports no usage cannot be charged, and the run does not go on. */
    method ChargeTokens(usage: Option<nat>) returns (r: Outcome<BudgetError>)
      modifies this`tokens
      ensures r.Returned? ==> usage.Some? && tokens == old(tokens) + usage.value <= limits.tokens
      ensures r == Raised(BudgetExceeded(Tokens)) ==>
                usage.Some? && tokens == old(tokens) + usage.value > limits.tokens
      ensures tokens != old(tokens) ==> usage.Some? && tokens == old(tokens) + usage.value
    {
      var checked := Check();
      if checked.Raised? {
        return checked;
      }
      if usage.None? {
        return Raised(UnmeteredUsage);
      }
      tokens := tokens + usage.value;
      if tokens > limits.tokens {
        return Raised(BudgetExceeded(Tokens));
      }
      return Returned;
    }

    method ChargeOutput(bytes: nat) returns (r: Outcome<BudgetError>)
      modifies this`outputBytes
      ensures r.Returned? ==> outputBytes == old(outputBytes) + bytes <= limits.outputBytes
      ensures r == Raised(BudgetExceeded(OutputBytes)) ==>
                outputBytes == old(outputBytes) + bytes > limits.outputBytes
      ensures outputBytes != old(outputBytes) ==> outputBytes == old(outputBytes) + bytes
      ensures r.Raised? ==> r.error != UnmeteredUsage
    {
      var checked := Check();
      if checked.Raised? {
        return checked;
      }
      outputBytes := outputBytes + bytes;
      if outputBytes > limits.outputBytes {
        return Raised(BudgetExceeded(OutputBytes));
      }
      return Returned;
    }
  }
}
