# Atlas Core in Dafny

A model of the bounded task loop of Atlas Core and of what it promises about a run: that it
ends, that its log can always be read, that what it calls verified is true of what it read,
that writes are approved and tools metered, and that what a model is told and what it answers
keep their bounds and their meaning. Everything is stated for all inputs, all host behaviour
and all interleavings. Check the proofs with `dafny verify dfyconfig.toml`.

## How it is laid out

- **The run.** `Machine`, `State`, `Budget` and `Controller` model the loop and its closures as
  classes that update their fields; `Lifecycle` starts, kills, resumes and seals runs beside a
  log. The model adapter, the observer and the readers are arbitrary: a callback may call the
  gateway and the budget as often as it likes, answer anything or raise. The clock and the
  caller's cancellation may answer anything at every boundary, but they do answer. A source may
  read differently every time, or fail as the check that reads it expects: a citation check
  with a refused path or any read error, the drift gate with a refused path or a missing file.
- **The history.** `EventLog` grows it, `Inspect` states what a valid one is and proves that
  the validator, the call states, the report and the metrics agree on it, `HostApi` observes it
  while a run writes it, and `JsonlFile` writes it as text, dies in the middle and reads it back.
- **The evidence.** `Observations`, `Snapshots`, `Observer`, `PartialReads` and
  `FilesystemRepo` cover what is read and merged; `Findings`, `ClaimCheck`, `Evidence`,
  `Grading`, `GradingProofs` and `Evaluator` what is graded; `ClaimScope` how far a literal
  claim reaches beyond its excerpt; `SharedIds` what findings of one id do; `ReviewProducers`
  and `ProducedReviews` what Atlas writes itself.
- **The boundary.** `Approval`, `ToolSchema` and `ToolGateway` cover writes and tools;
  `Prompt` and `FindingsBlock` the text that goes to a producer and comes back.
- `Lines`, `Json`, `JsonText`, `Numerals`, `Chains`, `LogTexts` and `Wrappers` hold what the
  rest needs: Python's line splitting, stripping and `in`, a JSON printer and parser, decimal
  numerals, and text for ids.

SHA-256 is an injective function, exceptions are result values, and a read of a source is a
value that may differ at every read. Where the source updates a field or runs a loop the model
does too, and the method is proved against a function or relation whose properties are proved
beside it.

## What the code does not promise

Some of these statements are only true under a condition; each is stated exactly, with the
condition or with the input that breaks it.

- A log reads back as written exactly when no string in it holds a raw U+0085, U+2028 or
  U+2029: JSON leaves them raw and the reader splits lines at them (`JsonlFile.ReadsBackExactly`).
- A window that would be one blank line cannot be an observation. A source whose last window
  is one is not read to its end; the observer, which takes the refusal for a changed file, goes
  back to the head (`PartialReads.ReadsToTheEndIff`, `PartialReads.WindowAdvancesIff`). A file
  that is a single blank line makes a whole round raise (`FilesystemRepos.HeadIsReadIff`).
- A host's reader asks for each name once but records the file a name leads to. A pattern that
  matches a file and a link to it inside the root therefore makes a round with one source twice,
  which the merge refuses, and the run stops with a tool error (`FilesystemRepos.LinkIsRefused`).
  Every possible round is accepted exactly when a round may hold one file only or no two of the
  names asked for lead to one file (`FilesystemRepos.RoundsMergeIff`).
- Verdicts are kept by finding id, the hash of claim and scope around a NUL. The supported count
  is the verified count, and the gate opens only on findings verified on their own, exactly when
  no two findings share one (`SharedIds.CountIsRightIff`, `SharedIds.GateIsRightIff`). A review of
  one concrete source shows each failure (`SharedIds.SharedIdsHappen`). The gate theorem says of
  each finding that it, or one of the same id, is grounded; with distinct ids it is the finding
  itself (`SharedIds.NoGapMeansOwnGrounded`).
- A literal with a newline can be in an excerpt and not in its file: a local read turns carriage
  returns into newlines, but a form feed or U+2028 stays, and an excerpt joins its lines with
  newlines whatever broke them. A contains carries to the file exactly for literals without a
  newline or with a break no excerpt holds (`ClaimScopes.ContainsCarriesIff`), a lacks over a
  full read exactly for those of `ClaimScopes.LacksCarriesIff`.
- A produced finding is verified exactly when its path does not begin with white space, and a
  changelog finding exactly when the heading, rebuilt with one space, was observed, which its
  own line shows exactly when one plain space follows the marks.
- A run that starts between an observer's probe of the lock and its read of the log is reported
  interrupted (`HostApi.StartBetweenLooksIsMisreported`), and no other that still holds its lock
  is (`HostApi.MisreportedMeansStartedBetween`).
- A model call is left without an outcome exactly when the adapter raises a cancellation or an
  exceeded budget (`Controllers.Run.CallModel`), and an input schema the gateway cannot read
  leaves a tool call without one. Nothing else does (`Controllers.Run.Execute`).
- An exception nobody catches escapes the run, which then has no stop: one from a cancellation
  hook or a clock, or a permission error that the drift gate meets, where a citation check would
  have caught it. The statements about whole runs are about the others; what an escape leaves in
  the log is what dying there leaves, which `Lifecycles.Attempt` and `Lifecycles.Live` cover.
- The stop that `_run` keeps for falling out of its loop is never taken: a pass only goes on
  while another is left, so `max_iterations` is always a decision about the last answer.

## Model

| member | source | states |
|---|---|---|
| `RunStates.AtlasRunState.Enter` | atlas_core/state.py:271-279 | a move is made exactly when the table allows it; a refused move changes nothing |
| `RunStates.AtlasRunState.Stop` | atlas_core/state.py:281-297 | a run can be stopped exactly once, and for approval only while evaluating; status and reason are set together, also for the quota stop that skips the table |
| `Machine.TerminalIsLast` | atlas_core/machine.py:199-238 | a terminal status can only be the last one on a legal path |
| `Machine.StopIsLegal` | atlas_core/machine.py:199-238 | which stops are moves the table allows: all from every working status, except approval, which is only reachable from evaluating |
| `Machine.ClassifyStop` | atlas_core/machine.py:280-313 | exactly when each of the six reasons stands for an evaluation, approval and passing before what blocks, and a spent bound before missing evidence |
| `Controllers.Run.Execute` | atlas_core/controller.py:460-1428 | a run that no exception escapes (the cancellation hook and the clock answer, a source reader fails only with what the check that called it catches) ends within its iterations in the status of its reason along a legal path, appends exactly one final stop to an acceptable log, and when it passes its last evaluation and drift gate say so; with readable tool schemas it leaves no call open that was not, or one model call, and that only when it stopped cancelled or out of budget |
| `Controllers.Run.Loop` | atlas_core/controller.py:1026-1398 | passes are bounded, the log only grows, and the bound ends a run only through a decision about its last answer |
| `Controllers.Run.Pass` | atlas_core/controller.py:1026-1398 | one pass either ends the run or leaves it replanning with an iteration left and every call it began finished |
| `Controllers.Run.TakeRound` | atlas_core/controller.py:809-929 | a round that differs from the one recorded stops the run blocked; any other stops it only cancelled or out of budget, and then it is not adopted |
| `Controllers.Run.Decide` | atlas_core/controller.py:1267-1398 | how each decision ends: a late run by its limit, a fruitless read blocked, moved sources or a need for material nobody was asked about blocked, and everything else on the answer; a run goes on only when the answer fell short and a pass is left |
| `Controllers.Run.DecideOnTheAnswer` | atlas_core/controller.py:1323-1398 | which rule ends the run and when another pass is taken; a run that stops passed has an evaluation that passed, no approval outstanding, a consistent drift gate and its output paid for |
| `Controllers.Run.FindMaterial` | atlas_core/controller.py:1273-1322 | the host is asked exactly when it may be; a read that brings nothing ends the run blocked, so the rules about the answer are never reached while observing |
| `Controllers.Run.ReadAgain` | atlas_core/controller.py:635-732 | the windows it asks for are always ones a request accepts, and it ends observing, with what it adopted paid for, or stopped |
| `Controllers.Run.ObserveRound` | atlas_core/controller.py:734-929 | its call always gets an outcome, it blocks the run exactly when a replayed round read something else, any other failure stops the run with a reason that is not about the answer, nothing is adopted unpaid, and a round that brings nothing leaves the sources as they were |
| `Controllers.Run.Adopt` | atlas_core/controller.py:851-929 | a round brings nothing exactly when it has no new material and resolves no pattern for the first time |
| `Controllers.Run.ModelPass` | atlas_core/controller.py:1062-1146 | a model call ends in output within the token and output totals, or in a cancelled, exhausted or failed run |
| `Controllers.Run.CallModel` | atlas_core/controller.py:1074-1146 | the call stays without an outcome exactly when the adapter raised a cancellation or an exceeded budget, which is then why the run stops; every other call begun inside it is finished when the schemas can be read |
| `Controllers.Run.DriftMoved` | atlas_core/controller.py:568-579 | the gate is silent only when HEAD held and every source, cited or not, reads fresh |
| `Controllers.Run.HaltFor` | atlas_core/controller.py:1123-1146 | a limit keeps its own stop reason and every other failure is a tool error |
| `Controllers.Run.Expired` | atlas_core/controller.py:552-566 | a boundary check stops the run or changes nothing |
| `Controllers.Run.RecordStop` | atlas_core/controller.py:935-952 | the stop is appended with the reason, class and status of the run |
| `Controllers.Run.PassedReviewStands` | atlas_core/controller.py:1267-1398 | a repository review that passed has only grounded findings, no unread pattern, and local sources none of which had moved at the gate after grading |
| `LogTexts.MaterialReadsBack` | atlas_core/controller.py:152-186 | what a resume compares is what the interrupted run recorded |
| `LogTexts.MergedIsABase` | atlas_core/evidence_base.py:82-133 | a merged round is a valid evidence base again |
| `Lifecycles.MayResume` | atlas_core/controller.py:271-311 | a resume is accepted exactly for a started, unstopped log of the same task in which every call that is not idempotent has an outcome after its start |
| `Lifecycles.RunOnce` | atlas_core/controller.py:460-545 | a run on top of an interrupted log leaves a valid history with one stop, with at most one call more left open than the log had, and only unmetered hosts are refused |
| `Lifecycles.Attempt` | atlas_core/controller.py:215-326 | a run that dies at any record, or that an exception escapes there, leaves a longer valid history or the same one, and a stopped run is never reopened |
| `Lifecycles.Live` | atlas_core/host_api.py:220-275 | after any number of crashes, resumes by hosts with other parts and limits, and seals the log is a valid history |
| `EventLogs.EventLog.Open` | atlas_core/eventlog.py:232-261 | a log opens exactly on a contiguous history of one run |
| `EventLogs.EventLog.Append` | atlas_core/eventlog.py:274-302 | one record is appended at its own position, and the history stays acceptable exactly when the rules allow the record |
| `EventLogs.EventLog.StartCall` | atlas_core/eventlog.py:304-325 | the id names the start event and no call had it before |
| `EventLogs.EventLog.FinishCall` | atlas_core/eventlog.py:327-354 | an outcome is accepted exactly for a started, unfinished call |
| `EventLogs.Grows` | atlas_core/eventlog.py:274-302 | appending keeps a history acceptable exactly when the record may follow it |
| `EventLogs.PrefixAccepted` | atlas_core/eventlog.py:274-302 | every prefix of an acceptable history is acceptable, and only a whole one has a stop |
| `EventLogs.NextIdIsNew` | atlas_core/eventlog.py:304-325 | the next call id has never been used |
| `EventLogs.IdsDiffer` | atlas_core/eventlog.py:304-325 | event ids of one run are distinct |
| `Inspect.ValidateHistory` | atlas_core/inspect_run.py:45-134 | the validator accepts exactly the valid histories |
| `Inspect.ValidateCalls` | atlas_core/inspect_run.py:76-99 | the call rules are accepted exactly when ids name their starts and no call has two outcomes |
| `Inspect.GrownIsValid` | atlas_core/inspect_run.py:45-134 | what can be grown one event at a time is exactly what the validator accepts |
| `Inspect.CrashPrefixIsValid` | atlas_core/inspect_run.py:45-134 | every non-empty crash prefix of a valid history is valid |
| `Inspect.CallStates` | atlas_core/eventlog.py:486-506 | the states are those of the history's calls |
| `Inspect.UnfinishedCalls` | atlas_core/eventlog.py:509-512 | in any history exactly the calls that began and have no outcome after their start; in a valid one the started calls less the finished ones |
| `Inspect.StatesMean` | atlas_core/eventlog.py:486-506 | in a valid history a call is known exactly when one outcome was recorded for it |
| `Inspect.InspectTotals` | atlas_core/inspect_run.py:186-216 | on every valid history the total is the number of starts logged, each outcome is counted as often as it was logged, and the unknown are the started calls less the finished ones |
| `Inspect.RunMetrics` | atlas_core/telemetry.py:78-93 | the metrics are the running tally of the history |
| `Inspect.CountersCountCalls` | atlas_core/telemetry.py:78-93 | each counter of a kind is the number of calls of that kind in that state |
| `Inspect.ReadersAgree` | atlas_core/telemetry.py:78-93 | on every valid history no counter is negative and the per-kind counters add up to the report's totals |
| `Inspect.TotalsAddUp` | atlas_core/inspect_run.py:186-216 | every call is in exactly one state |
| `Inspect.SecondOutcomeGoesNegative` | atlas_core/telemetry.py:78-93 | validity is needed: a second outcome drives a counter below zero |
| `JsonlFile.ReadJsonl` | atlas_core/eventlog.py:461-483 | the reader returns what the file holds, a torn last line aside |
| `JsonlFile.CutReads` | atlas_core/eventlog.py:461-483 | any cut of a well-formed log reads as a prefix of its records |
| `JsonlFile.Recovery` | atlas_core/eventlog.py:397-423 | cutting a torn tail back changes no reading, and appending after it reads as exactly the prefix plus the new records |
| `JsonlFile.CrashRecoverAppend` | atlas_core/eventlog.py:392-423 | die, truncate, append and read: no fragment is ever joined to a record |
| `JsonlFile.TruncatedUnique` | atlas_core/eventlog.py:397-416 | there is one way to cut a file back to its last whole line |
| `JsonlFile.ReadsBackExactly` | atlas_core/eventlog.py:418-423 | a log reads back exactly when no string in it holds a raw U+0085, U+2028 or U+2029 |
| `JsonlFile.LineSeparatorBreaksTheLog` | atlas_core/eventlog.py:470-483 | the concrete record that cannot be read back |
| `JsonlFile.JsonlSink.CheckTail` | atlas_core/eventlog.py:397-416 | a torn tail is refused, or cut back to the last newline |
| `Json.LoadsDump` | atlas_core/eventlog.py:418-423 | what is printed, compactly or indented, parses back to the same value |
| `Json.StringOfQuote` | atlas_core/eventlog.py:418-423 | every string survives escaping and reading |
| `JsonText.DumpPrinted` | atlas_core/eventlog.py:418-423 | a printed record holds a line break exactly when a string in it holds a raw one |
| `JsonText.DumpNoFence` | atlas_core/adapters/output_contract.py:297-300 | in a printed value no newline is followed by a backtick |
| `JsonText.NoPartIsARecord` | atlas_core/eventlog.py:461-483 | no proper prefix of a printed record parses |
| `HostApi.StepIsLater` | atlas_core/host_api.py:132-175 | every step of run or observer, a refused resume and an escaping exception among them, keeps the order of the log, the lock and the locks lost |
| `HostApi.NeverMistakenForInterrupted` | atlas_core/host_api.py:178-202 | a run that took its lock before the probe and did not lose it without a stop is never reported interrupted, whenever the log is then read and read again |
| `HostApi.MisreportedMeansStartedBetween` | atlas_core/host_api.py:178-202 | conversely, a run reported interrupted that holds its lock at the reading took it between the probe and that reading |
| `HostApi.FinishedIsFinal` | atlas_core/host_api.py:178-202 | once reported stopped, a run is reported stopped forever |
| `HostApi.StartBetweenLooksIsMisreported` | atlas_core/host_api.py:178-202 | the hypothesis is needed: a run that starts between probe and read is reported interrupted |
| `HostApi.Host.FollowEvents` | atlas_core/host_api.py:278-310 | what is yielded is a gap-free, repeat-free prefix of the history, and all of it when a stop was seen |
| `HostApi.Yield` | atlas_core/host_api.py:295-302 | the records after those seen are handed on, up to and including the first stop |
| `HostApi.LogStore.SealLostRun` | atlas_core/host_api.py:220-275 | sealing records one stop, keeps a valid history valid, and returns the logged reason when there is one |
| `HostApi.LogStore.SealTwice` | atlas_core/host_api.py:220-275 | a second seal leaves the records as the first left them and returns the first reason |
| `HostApi.SealIsValid` | atlas_core/host_api.py:248-271 | the sealed history is valid and ends in the sealing reason |
| `HostApi.FindStop` | atlas_core/host_api.py:245-247 | the first logged stop, when there is one |
| `Budget.RunBudget.ReserveTool` | atlas_core/budget.py:85-90 | a call is counted before it is made and the quota is never overrun |
| `Budget.RunBudget.ReserveModel` | atlas_core/budget.py:78-83 | the same for model calls |
| `Budget.RunBudget.ChargeTokens` | atlas_core/budget.py:92-99 | a charge that returns was metered and within the total; the one that overruns raises |
| `Budget.RunBudget.ChargeOutput` | atlas_core/budget.py:101-106 | the same for output bytes |
| `ToolGateways.ToolGateway.Invoke` | atlas_core/tool_gateway.py:294-350 | over retries and nested calls each handler run took one call of the quota and no more ran in all than the quota; nothing runs for a call that is not permitted; every call started was finished unless an input schema was unreadable; a value comes back exactly from a call recorded ok, in the declared shape |
| `ToolGateways.ToolGateway.Attempts` | atlas_core/tool_gateway.py:320-350 | each attempt has its own call in the log, the last of which is ok exactly when a value comes back |
| `ToolGateways.ToolGateway.Execute` | atlas_core/tool_gateway.py:285-292 | a handler may call back in as often as it likes and still only uses the same quota |
| `ToolGateways.ToolGateway.CheckResult` | atlas_core/tool_gateway.py:329-347 | a result is returned only when it is JSON of the declared shape and paid for |
| `ToolGateways.ToolGateway.InvokeWrite` | atlas_core/tool_gateway.py:352-428 | a write changes the approvals as one write step on its own arguments or not at all, and its handler ran exactly when that step recorded an execution; it and what it calls took one call of the quota for each handler that ran, and every call begun was finished unless an input schema was unreadable |
| `ToolGateways.ToolGateway.Spend` | atlas_core/tool_gateway.py:403-415 | the token is spent before the budget is asked, and the handler is certain to run only when both agree |
| `ToolGateways.ToolGateway.Denial` | atlas_core/tool_gateway.py:295-318 | the checks before a handler deny exactly the calls that are not permitted, and only an unreadable schema escapes them |
| `ToolGateways.WriteKeepsApprovals` | atlas_core/tool_gateway.py:352-428 | what holds over approval steps holds over every use of the gateway |
| `ToolGateways.WriteKeepsDescriptions` | atlas_core/tool_gateway.py:396-417 | each use of the gateway keeps it that the arguments of every handler run are described as the operation that was granted |
| `ToolGateways.HandlersRanAsDescribed` | atlas_core/tool_gateway.py:352-428 | so over any sequence of requests, answers and writes a write handler ran only on arguments its tool describes as the granted operation |
| `Approval.ThawFreeze` | atlas_core/approval.py:89-104 | what an approval keeps of its arguments is what was asked: thawing a frozen value gives the value back |
| `Approval.StepKeeps` | atlas_core/approval.py:174-276 | every request, answer, consume and write keeps the approvals' invariant |
| `Approval.WritesAreApproved` | atlas_core/approval.py:233-265 | over any sequence of steps each handler run has an approval of its own and runs the granted operation; its token was consumed at the approved commit before both expiries (clock and commit are those of the consume: the handler runs later, after the budget was asked, and they are not looked at again) |
| `Approval.SpentExactlyAsGranted` | atlas_core/approval.py:233-265 | a token is spent exactly on its own operation, in time, at the approved commit |
| `Approval.DecisionsFollow` | atlas_core/approval.py:157-172 | each approval's log reads requested, then granted or refused, with at most one consumed |
| `Approval.ApprovalAuthority.RequestIt` | atlas_core/approval.py:179-184 | a request is recorded and waits for an answer |
| `Approval.ApprovalAuthority.GrantRequest` | atlas_core/approval.py:194-213 | only an open request is granted, by a named person, for a bounded time |
| `Approval.ApprovalAuthority.RefuseRequest` | atlas_core/approval.py:215-221 | only an open request is refused |
| `Approval.ApprovalAuthority.ConsumeToken` | atlas_core/approval.py:233-276 | a token is consumed exactly when nothing rejects it, and either way one decision is recorded |
| `ToolSchema.ValidatorsCompare` | atlas_core/feedback.py:182-222 | on a well-formed schema, whose length bounds are natural numbers, the gate lists no fault exactly when the gateway accepts and the keywords only the gate knows hold too |
| `ToolSchema.ValidatorsAgree` | atlas_core/tool_gateway.py:51-89 | on the shared keywords the two validators agree at any nesting |
| `ToolSchema.ConstDivides` | atlas_core/feedback.py:182-222 | the restriction is needed: const divides them |
| `Observations.Create` | atlas_core/observation.py:152-187 | an observation is built exactly when its path and snapshot id are real, its range fits its excerpt and its total holds its range, and then it is valid under its own source id |
| `Observations.RangeError` | atlas_core/observation.py:300-312 | an excerpt covers lines that run forwards, and no excerpt covers none |
| `Snapshots.FirstPrefixedLine` | atlas_core/snapshot.py:337-341 | the first line with the prefix |
| `Snapshots.CollectedIs` | atlas_core/snapshot.py:161-222 | a collected observation is valid, quotes its own lines of the digested content and knows how many there are |
| `Snapshots.FreshIffUnchanged` | atlas_core/snapshot.py:225-289 | verification of a collected window is fresh exactly when the content is unchanged |
| `Snapshots.CollectSucceedsIff` | atlas_core/snapshot.py:344-361 | which windows can be collected: all inside the source but a single blank line |
| `Observers.MergeObservations` | atlas_core/observer.py:244-329 | an answer is refused exactly for a foreign snapshot or a repeated source, and otherwise merged in place and recorded |
| `Observers.MergeKeepsTheBase` | atlas_core/observer.py:244-329 | ids stay unique, positions are kept, one snapshot remains |
| `Observers.RoundCounts` | atlas_core/observer.py:244-329 | each incoming item is counted once, under its own kind |
| `Observers.KindsPartition` | atlas_core/observer.py:244-329 | a list of the round is empty exactly when no item is of its kind |
| `Observers.NothingNewIff` | atlas_core/observer.py:209-210 | no new material exactly when what the run holds is unchanged |
| `Observers.SignatureIff` | atlas_core/controller.py:102-137 | for honest observations the material signature, evidence and plan, is unchanged exactly when the round had no new material and the plan is the same |
| `PartialReads.NextPartialWindows` | atlas_core/evaluator.py:1033-1080 | the windows offered, in order |
| `PartialReads.OfferedIsARequest` | atlas_core/observer.py:135-138 | every window offered passes validation and no path is named twice |
| `PartialReads.WindowAdvancesIff` | atlas_core/adapters/filesystem_repo.py:191-212 | over an unchanged source the next read starts on the very next line, except for a stranded blank last line, where the host goes back to the head |
| `PartialReads.NothingAfterTheEnd` | atlas_core/evaluator.py:1049-1050 | no window is offered exactly when the source has been read to its end |
| `PartialReads.TilesCover` | atlas_core/evaluator.py:1033-1080 | repeated rounds lie end to end and together are the source from the first excerpt on |
| `PartialReads.ReadsToTheEndIff` | atlas_core/evaluator.py:1033-1080 | which sources are read to the end: all but those whose last window is one empty line |
| `FilesystemRepos.FilesystemRepoObserver.Observe` | atlas_core/adapters/filesystem_repo.py:124-217 | what a round answers is decided by how its reads come back: in the order of the names, the first thing wanted of each, a requested window before an ordinary read, within its bound, each reserved on the budget, all from one snapshot |
| `FilesystemRepos.FilesystemRepoObserver.ReadOne` | atlas_core/adapters/filesystem_repo.py:176-214 | a read answers exactly as its two attempts decide: with its window or the head of the file the name leads to, recorded under that file |
| `FilesystemRepos.RoundAnswers` | atlas_core/adapters/filesystem_repo.py:124-217 | the answers of any round are at increasing places, each the first under its name and collected from what was there |
| `FilesystemRepos.RoundsMergeIff` | atlas_core/integrity.py:75-97 | every round a request can be answered with is one the merge accepts exactly when it may hold one file only or no two names asked for lead to one file |
| `FilesystemRepos.MergeRound` | atlas_core/observer.py:244-329 | a round is merged exactly when no source is in it twice, and always when no two names lead to one file |
| `FilesystemRepos.LinkIsRefused` | atlas_core/containment.py:44-67 | a file, a link to it and a pattern that matches both: a round that can come back is refused when it is merged |
| `FilesystemRepos.HeadIsReadIff` | atlas_core/adapters/filesystem_repo.py:177-207 | the one content a plain read fails on: a file that is a single empty line |
| `Findings.IntactMeans` | atlas_core/finding.py:370-429 | an intact citation quotes, word for word, part of a recorded excerpt of text that has not changed |
| `Findings.WindowInside` | atlas_core/finding.py:393-394 | lines inside a range are text inside its excerpt |
| `ClaimChecks.ObservedText` | atlas_core/claim_check.py:309-381 | what is settled against is an excerpt the finding cites, re-read and still what it was |
| `ClaimChecks.VerifiedMeansTrue` | atlas_core/claim_check.py:384-475 | only a typed claim is verified, and then it is true of the observed lines in exactly the words shown |
| `ClaimScopes.FoundInTheFile` | atlas_core/claim_check.py:189-194 | a literal without a newline that an honest excerpt contains is in its file, however the excerpt was collected |
| `ClaimScopes.VerifiedContainsHolds` | atlas_core/claim_check.py:448-465 | so a verified contains without a newline holds of the content re-read to settle it |
| `ClaimScopes.ContainsCarriesIff` | atlas_core/claim_check.py:189-194 | the literals a contains carries from every excerpt to its local file: exactly those without a newline or with a break no excerpt can hold |
| `ClaimScopes.LacksCarriesIff` | atlas_core/claim_check.py:189-194 | the literals a lacks over a full read carries to its local file: exactly those whose only breaks are newlines, none of them last, or that hold a carriage return |
| `ClaimScopes.LocalTextIff` | atlas_core/containment.py:98-111 | the contents a local read can return are exactly those without a carriage return |
| `ClaimScopes.TotalIsNotRecounted` | atlas_core/claim_check.py:309-381 | a lacks needs the collection too: a valid, honest observation can call itself complete and miss a line, since its total is never counted again |
| `ClaimScopes.AbsentFromTheFile` | atlas_core/observation.py:206-228 | over a source collected in full a single-line lacks holds of the excerpt exactly when the literal is nowhere in the file |
| `ClaimScopes.PartialAbsenceIsLocal` | atlas_core/claim_check.py:448-465 | over a partial read the same verdict says nothing of the rest |
| `Evidence.FindingsIn` | atlas_core/evidence.py:81-92 | the bullets collected are those of the classified lines |
| `Evidence.BulletsAreClaims` | atlas_core/evidence.py:81-92 | a bullet is a claim exactly when its nearest heading is a findings heading |
| `Grading.GradeAgainstEvidence` | atlas_core/evaluator.py:672-852 | the grade is that of the findings checked one by one, with verdicts kept by id |
| `Grading.Verdicts` | atlas_core/evaluator.py:717-726 | one verdict per id, the last one settled |
| `GradingProofs.NothingIsLost` | atlas_core/evaluator.py:754-786 | with distinct ids the piles and the verified findings are all findings, and supported counts the verified |
| `GradingProofs.CoverageIsAShare` | atlas_core/evaluator.py:778-787 | coverage is then the share of verified findings and lies between 0 and 1 |
| `GradingProofs.IdIsClaimAndScope` | atlas_core/finding.py:456-458 | ids of NUL-free claims are equal exactly when claim and scope are |
| `GradingProofs.NoGapsIff` | atlas_core/evaluator.py:789-805 | no gap exactly when every bullet is declared and every record is sound and verified |
| `GradingProofs.RetryIsOfferedIff` | atlas_core/evaluator.py:855-886 | with a gap a retry is possible exactly when no source has to be read again first |
| `GradingProofs.NoGapMeansGrounded` | atlas_core/evaluator.py:672-852 | the gate never opens on an unsettled finding |
| `GradingProofs.VerifiedIsGrounded` | atlas_core/claim_check.py:694-732 | a verified finding has citations that hold and a claim that is true |
| `SharedIds.CountIsRightIff` | atlas_core/evaluator.py:757-787 | the supported count is the verified count, however the checks turn out, exactly when no two findings share an id |
| `SharedIds.GateIsRightIff` | atlas_core/evaluator.py:720-805 | the gate opens only on findings each verified on its own, however the checks turn out, exactly when no two findings share an id |
| `SharedIds.NoGapMeansOwnGrounded` | atlas_core/evaluator.py:672-852 | with distinct ids every finding that gets through is grounded itself |
| `SharedIds.UndeclaredCopyPasses` | atlas_core/evaluator.py:720-805 | a finding that declares nothing gets through beside any verified finding of its id |
| `SharedIds.MiscitedCopyGoesNegative` | atlas_core/evaluator.py:757-787 | a refuted finding and a miscited copy of it have a coverage of minus one half |
| `SharedIds.SharedIdsHappen` | atlas_core/evaluator.py:672-852 | one review of each kind, of a concrete collected source, through the whole grading |
| `Evaluators.Evaluate` | atlas_core/evaluator.py:357-530 | an evaluation passes exactly when nothing the route, the plan or the question asks for is outstanding, and offers a retry only within the bound |
| `Evaluators.GapsFailCriteria` | atlas_core/evaluator.py:439-463 | every gap fails a criterion its route declares, so no gap can be outvoted |
| `Evaluators.ShapeIsMetIff` | atlas_core/evaluator.py:386-400 | the requirements of form are met exactly when no section is missing and a route that checks nothing else is long enough |
| `Evaluators.PassesIff` | atlas_core/evaluator.py:461-469 | nothing unmet and no approval is exactly deserving to pass |
| `Evaluators.Unmet` | atlas_core/evaluator.py:382-463 | the unmet criteria are those of form and those the gaps fail |
| `Evaluators.PassedReviewIsEstablished` | atlas_core/evaluator.py:672-852 | a passed review of sources has only grounded findings and no unread pattern |
| `Evaluators.WithoutSourcesNothingIsClaimed` | atlas_core/evaluator.py:594-652 | with nothing to re-read a review passes only by claiming nothing |
| `ReviewProducers.ProducedIsVerifiedIff` | atlas_core/review_producers.py:865-905 | against the unchanged source a literal finding is verified exactly when its literal was observed and its path does not begin with white space |
| `ReviewProducers.ProducedIsIntact` | atlas_core/review_producers.py:865-905 | and its citation is intact |
| `ReviewProducers.ExcerptLine` | atlas_core/review_producers.py:493-509 | a line of an excerpt is the line of the source that its number names |
| `ReviewProducers.ProducedIsAccepted` | atlas_core/review_producers.py:865-905 | so a finding made of any literal on any observed line is cited intact and verified against the unchanged source, the marker findings among them |
| `ReviewProducers.TestCommandIsAccepted` | atlas_core/review_producers.py:768-783 | the finding of the one test command is cited intact and verified |
| `ReviewProducers.VersionFileIsAccepted` | atlas_core/review_producers.py:786-796 | and of the one version line |
| `ReviewProducers.PyprojectIsAccepted` | atlas_core/review_producers.py:799-823 | and of the one project version |
| `ReviewProducers.ManifestIsAccepted` | atlas_core/review_producers.py:845-862 | and of the one manifest version |
| `ProducedReviews.ProducedReviewHasNoGap` | atlas_core/evaluator.py:672-852 | a review of produced findings over unchanged sources has no gap, whatever else its output says |
| `ReviewProducers.FindingForMarker` | atlas_core/review_producers.py:493-509 | a finding is built exactly when a line of the excerpt has the marker, and from such a line |
| `ReviewProducers.SingleTestCommand` | atlas_core/review_producers.py:768-783 | the one test command, when there is exactly one |
| `ReviewProducers.VersionFile` | atlas_core/review_producers.py:786-796 | the one version line, when there is exactly one |
| `ReviewProducers.PyprojectVersion` | atlas_core/review_producers.py:799-823 | the one version of the project section, when there is exactly one |
| `ReviewProducers.ManifestVersion` | atlas_core/review_producers.py:845-862 | the one version key, when there is exactly one |
| `ReviewProducers.ChangelogVersion` | atlas_core/review_producers.py:826-842 | the first release heading, with its literal rebuilt |
| `ReviewProducers.TestCommandIsLiteral` | atlas_core/review_producers.py:768-783 | the test-command literal is on its line |
| `ReviewProducers.VersionFileIsLiteral` | atlas_core/review_producers.py:786-796 | the version literal is on its line |
| `ReviewProducers.PyprojectIsLiteral` | atlas_core/review_producers.py:799-823 | the project version literal is on its line |
| `ReviewProducers.ManifestIsLiteral` | atlas_core/review_producers.py:845-862 | the manifest literal is on its line |
| `ReviewProducers.ChangelogIsVerifiedIff` | atlas_core/review_producers.py:826-842 | the changelog finding is verified exactly when the rebuilt heading was observed |
| `ReviewProducers.RebuiltHeadingIff` | atlas_core/review_producers.py:826-842 | the rebuilt heading starts its stripped line exactly when one plain space follows the marks |
| `ReviewProducers.OneSpaceIsLiteral` | atlas_core/review_producers.py:826-842 | one space after the marks makes the rebuilt heading a literal of its line |
| `ReviewProducers.TwoSpacesAreAHeading` | atlas_core/review_producers.py:826-842 | two spaces are a release heading too |
| `ReviewProducers.TwoSpacesAreNoLiteral` | atlas_core/review_producers.py:826-842 | whose rebuilt literal is not on the line |
| `Lines.SplitJoin` | atlas_core/snapshot.py:344-367 | splitting a joined excerpt gives back its lines, a trailing empty one aside |
| `Lines.ContainsByLine` | atlas_core/claim_check.py:189-194 | text without a line break is in a source exactly when it is in one of its lines |
| `Prompts.BuildPrompt` | atlas_core/adapters/live_model.py:760-875 | raises exactly when the instruction alone does not fit, and otherwise never exceeds the bound, shows the longest beginning of the observations that fits, each whole or cut and saying so, and counts every cut and omission |
| `Prompts.PromptFits` | atlas_core/adapters/live_model.py:815-875 | what was reserved for the notices is enough for what is said |
| `Prompts.CutNoticeFits` | atlas_core/adapters/live_model.py:746-750 | a cut notice is longest when least is kept |
| `Prompts.OmissionNoticeFits` | atlas_core/adapters/live_model.py:753-757 | an omission notice is longest when everything is omitted |
| `Prompts.CompleteIff` | atlas_core/adapters/live_model.py:347-348 | no cut and no omission exactly when every observation is shown whole |
| `Numerals.WidthMonotone` | atlas_core/adapters/live_model.py:746-757 | a smaller number is never wider |
| `FindingsBlocks.BlockRoundTrip` | atlas_core/adapters/output_contract.py:297-300 | for any findings and either fence the block is found again whole and reads back as the findings |
| `FindingsBlocks.OutputRoundTrip` | atlas_core/adapters/output_contract.py:287-294 | so it is in a whole output when no line of the report looks like a fence |
| `FindingsBlocks.ReportBlockWins` | atlas_core/evidence.py:36-40 | a report with a block of its own wins the search of a whole output |
| `FindingsBlocks.FindingsComeFromFindings` | atlas_core/adapters/output_contract.py:232-284 | what is graded from a conforming reply is exactly its findings, whatever its report holds |
| `FindingsBlocks.BodyIsWhole` | atlas_core/evidence.py:36-40 | a body in which no newline precedes a backtick ends where it was ended |
| `FindingsBlocks.ParsedIsWellFormed` | atlas_core/adapters/output_contract.py:241-246 | what a reply parses to can be printed again |

## Left out

- ToolGateways.ToolGateway.Invoke: handlers reach the gateway through `invoke` only; one that calls `set_route` or `invoke_write` on it, and the wall-clock and process side of an isolated handler, are not modelled.
- ToolGateways.ToolGateway.InvokeWrite: the digest recorded for an approval is the operation itself, writes are not nested, and a tool describes its arguments as a function of them and of the moment it is asked.
- Evaluators.Evaluate: takes the declared findings already parsed; reading JSON objects into `Finding` values (`_build_finding`, `_build_reference`, `_build_typed`) and the prose of reasons and adjustments are not modelled, and answering literals are an arbitrary predicate on text.
- Grading.GradeAgainstEvidence: the coverage it reports is exact where the source rounds to two decimals; nothing is decided by it.
- GradingProofs.VerifiedIsGrounded: a record carries its verdict and claim check only; severity, limitations and the quoted spans of a citation record are not modelled.
- ClaimChecks.VerifiedMeansTrue: the two tokenisers of a command-target claim are arbitrary functions, so agreement between producer and checker is not stated for that kind.
- ReviewProducers.ProducedIsAccepted: the version pattern is an arbitrary predicate; the relation producer and the routing of tasks to producers are not modelled.
- Controllers.Run.Execute: an exception that escapes the run (from the cancellation hook, the clock, or a source reader whose check does not catch it) has no outcome here; runs without a log, memory adapters, run metadata and the rendered document are not modelled; the plan, the route and whether approval is asked for are inputs.
- Lifecycles.Live: a resume compares rounds with all rounds the log records, which for a second resume includes rounds a replay logged again, as in the source; no replay equality is claimed.
- HostApi.NeverMistakenForInterrupted: a probe takes the lock for an instant, so a second probe or a starting run can find it held by an observer; locks are only held by runs here.
- Approval.StepKeeps: every step records its decision; in the source the state changes first, the log may then refuse the record, and an authority without a log records nothing.
- Approval.WritesAreApproved: clock and commit are looked at when the token is consumed and not again when the handler runs, in the source as here.
- HostApi.Host.FollowEvents: wall time is a bound on the number of looks, and a lock is a field its owner's death releases.
- JsonlFile.ReadJsonl: works on characters, so a cut inside a multi-byte character is outside the model, as are unknown event kinds and envelopes that are no object.
- Json.LoadsDump: numbers are their numerals, so re-formatting of floats, lone surrogates and NaN are outside the model.
- Observations.Create: which path names stay inside the root is not modelled, nor are timestamps, confidentiality, commit and ref; ids and digests are free constructors and not 16 or 64 hex digits.
- Prompts.BuildPrompt: the lines of the instruction (task, route, steps, question, feedback) are inputs, and the bound is proved for any two notices that are longest when most is missing.
- FilesystemRepos.FilesystemRepoObserver.Observe: globbing, what is a file inside the root and where a name leads are functions of the checkout, so a link that is repointed during a round is outside the model, as is the exception for a snapshot of another root.
- ToolSchema.ValidatorsCompare: a length bound that is no natural number, and an `enum` or `properties` of the wrong shape, make a schema that is not well-formed, of which nothing is claimed; the texts of the faults and the order of extra keys are not modelled.
- The provider adapters, redaction, process isolation, git, the CLI, text rendering, feedback promotion, the skill generator, benchmarks and contract tables add nothing to these properties.
