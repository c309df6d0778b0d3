# SafeOps execution protocol: a Dafny model

SafeOps runs the tool calls of AI agents behind permission checks, policies, a risk engine and human
approvals.  This project models the parts of its backend whose correctness is not visible in any one
function, and proves what they are for.  All paths below are relative to the repository.

`dafny verify dfyconfig.toml` checks everything.

## What is modelled

**The execution protocol** (`Rows`, `Chunks`, `Protocol`).  `Rows` holds the database rows of one
execution and every commit that the services make on them.  `Protocol` is a state machine: any number
of callers (steppers, resumers, external submitters, reconcilers, approvers, rejecters, lazy expirers,
cancellers) interleave, one transition for each commit and for each read whose value is used later.  A
caller is a program counter with the values it has read.  A caller that is never scheduled again has
crashed; `Abort` is an exception, which still runs the `finally` that releases the lease.  Planner,
registry, permission, policy, risk, tool outcome and clock readings come from an oracle that is free
at every transition, so the theorems hold for every planner, policy set and tool.  `trace` is history:
permission, policy and risk decisions, approval grants, and the invocations themselves, in commit
order.  Theorems over runs quantify over every schedule of every length:
`Outstanding` (one outstanding approval), `Mediation` (complete mediation, at most one invocation),
`Verdicts` (step verdicts), `Replay` and `CancelRace` (audit log against status), `Deadlines`
(approvals and their expiry), `Stranded` (which outstanding approvals can still be resolved),
`LateCancel` (a cancel between a call's look at the status and its effect), `Leases` (the stepping
lease), `StepBound` and `BoundReached` (step sequences and the step bound).

**The services as they are written** (`Executions`, `ToolGateway`, `ApprovalEngine`, `AgentRuntime`).
A class with the fields of an execution, its commits as methods that assign those fields, and on top of
it the service procedures with the source's control flow.  Every procedure is proved to be a run of the
state machine from its entry point to its end (`Alone.Reaches`); the result is unique
(`Alone.Determined`) and is a run like any other (`Alone.IsARun`), so the theorems above apply to it.
Each also says what it answers, what every step's status becomes and which tool calls are invoked, as a
function of the outside answers (`AgentRuntime.AfterSection`, `ToolGateway.ReplyTo`), and that its answer
is true of the rows it leaves (`AgentRuntime.ToldAll`, `ToolGateway.Requests`).

**The audit log** (`Audit`, `GatewayRows`, `Logged`).  The retry loop that numbers audit rows, as a method
and as a machine of interleaved reads and commits, the row builders it is given, and what each commit of
the protocol logs.

**The decisions** (`PolicyConditions`, `PolicyEngine`, `RiskEngine`, `RefundDecision`).  The condition
evaluator over JSON trees, when the order of clauses matters (`ClauseOrder`), rank and priority
resolution, additive scoring, and the seeded refund policies put through all of them.

**Recovery by history** (`Planner`, `Payments`, `Devops`, `ExternalAction`) and **the sliding window**
(`RateLimit`).  `PlannedRuns` ties the planner's runs to the runtime they are run by.

## Where the code and its documentation part

- CANCELLED is one of the terminal statuses (apps/api/app/services/agent_runtime.py:106-111), but the
  approval engine sets the status to RUNNING without looking at it
  (apps/api/app/services/approval_engine.py:164, :331), and expiry does so when the status it read was
  WAITING_APPROVAL (:403).  `Replay.TerminalLeftExactly` and
  `Replay.ReplayExactly` give the exact condition, `CancelRace.CancelIsOverwritten` a run.
- `cancel` commits the status before its event (apps/api/app/services/agent_runtime.py:341-371).  The
  log is behind the status in between, and for good when `cancel` raises there; both are in
  `Replay.ReplayExactly`.
- The runtime answers "not finished executing yet" for a claimed approval whose outcome is not
  committed (apps/api/app/services/agent_runtime.py:906-913).  If the claimer has crashed, that is for
  good: an outstanding approval can still be resolved if and only if it is pending or its claimer is
  still at work (`Stranded.ResolvableExactly`).
- Two refunds with different keys that overlap on one payment can both be inserted
  (apps/api/app/tools/payments.py:55-79): `Payments.RaceRefundsTwice`.  `Payments.ConservedExactly` names
  the commit that has to happen for that, `Payments.ConservedWhenExclusive` what callers can avoid.
- The gateway reads the execution's status once, at its entry
  (apps/api/app/services/tool_gateway.py:109-121), the approval engine before its claim
  (apps/api/app/services/approval_engine.py:111-124).  A cancel after that comes too late for the
  effect: `LateCancel.EffectAfterCancel` and `LateCancel.CancelCanComeFirst`.
- Reordering the clauses of a policy can turn an answer into an error (`PolicyConditions.OrderMatters`),
  although it can never turn True into False; `ClauseOrder.ReorderableExactly` says when it cannot.
- `in` compares its elements otherwise than `eq` does (`PolicyConditions.InIsNotEq`):
  `PolicyConditions.EqualitiesDiffer` says for which values, `PolicyConditions.InIsEqExactly` for which
  lists that shows.
- A retry of an external request is to find the real outcome or try again, "never duplicate"
  (apps/api/app/services/external_action_service.py:330-335).  But the search of the history skips PENDING
  steps (:411-413), and a call that stops inside `submit_external_action` leaves just that:
  `ExternalAction.SubmittedTwice`.  `ExternalAction.OnceExactly` and `ExternalAction.SubmitsExactly` give the
  condition.  The repeated call has the same arguments, so a tool with a key still acts once
  (`Payments.OneRefundPerKey`).
- The limiter reads the clock before it takes its lock (apps/api/app/core/rate_limit.py:33-34), so times
  need not get into the deque in order.  Calls are listed in lock order here.  If no call is behind an
  earlier one by more than some skew, the limit holds for windows shorter by that skew
  (`RateLimit.NeverExceeds`), and in general for none longer (`RateLimit.SkewIsLost`).

## Conventions

Times are integers (microseconds in the protocol, any unit in the limiter); decimals are `real`.
Identifiers are row indices; a call's lease id is its own number.  A commit is one atomic change of the
rows and a rollback is no change.  `State.aborted` counts the critical sections that ended by an
exception or by a takeover of their lease; it is 0 in a run without either.

## Model

| member | source | states |
|---|---|---|
| Outstanding.AtMostOneOutstanding | apps/api/app/services/tool_gateway.py:860-906 | In every reachable state two outstanding approvals (PENDING, or claimed with the outcome not committed) are the same one; an outstanding one implies WAITING_APPROVAL or CANCELLED, so a RUNNING execution has none; WAITING_APPROVAL always has one |
| Mediation.CompleteMediation | apps/api/app/services/tool_gateway.py:123-275 | Before every tool invocation of every run the trace holds, for that request and those arguments, a permission other than DENY, a policy and a risk decision; their join is ALLOW, or REQUIRE_APPROVAL with a granted approval of the same arguments |
| Mediation.InvokedOnce | apps/api/app/services/approval_engine.py:218-299 | No tool request, and so no approval, is invoked twice in any run |
| Mediation.NeverWithoutGrant | apps/api/app/services/approval_engine.py:126-148 | The request of an approval is invoked only after that approval was claimed APPROVED, with the approved arguments; never if it is pending, rejected or expired |
| Verdicts.CompletedMeansExecuted | apps/api/app/services/agent_runtime.py:692-815 | A TOOL_CALL step is COMPLETED only if its own call ran and succeeded, directly or through an EXECUTED approval with an EXECUTED request; rejection or expiry never completes a step |
| Verdicts.VerdictsAreFinal | apps/api/app/services/agent_runtime.py:817-913 | Along every run the first claim of an approval and the first verdict of a step stand: no later transition changes them |
| Deadlines.ResolvedOnTime | apps/api/app/services/approval_engine.py:100-148 | APPROVED, REJECTED and EXECUTED imply resolved before expires_at; EXPIRED implies at or after it |
| Deadlines.FifteenMinutes | apps/api/app/services/tool_gateway.py:860-906 | In every run an approval that nobody has decided can be claimed at exactly the clock readings before fifteen minutes after its admission |
| Stranded.CrashStrands | apps/api/app/services/approval_engine.py:126-189 | An approver, rejecter or expirer that stops between its claim and its outcome commit, at any point of any run, leaves the approval outstanding with nobody to resolve it |
| Stranded.StrandedForever | apps/api/app/services/agent_runtime.py:906-913 | From then on, whatever all callers do, the approval stays outstanding and the execution is WAITING_APPROVAL or CANCELLED |
| Stranded.OwnerResolves | apps/api/app/services/approval_engine.py:126-216 | Whoever claimed an approval and is still at work resolves it in at most four turns of its own, none of which collides |
| Stranded.PendingResolves | apps/api/app/services/approval_engine.py:100-148 | A pending approval can be resolved from every such state, by somebody new |
| Stranded.ResolvableExactly | apps/api/app/services/approval_engine.py:126-216 | In every reachable state some continuation resolves an outstanding approval if and only if it is pending or a caller at work has claimed it |
| LateCancel.EffectAfterCancel | apps/api/app/services/tool_gateway.py:109-121 | While a call that looked at the status may still invoke or record, in any run: the execution is CANCELLED if and only if a cancel was committed after that one look |
| LateCancel.CancelCanComeFirst | apps/api/app/services/approval_engine.py:111-124 | At any moment after the look a cancel can still be committed without moving the call, which goes on to its effect |
| Replay.ReplayExactly | apps/api/app/services/agent_runtime.py:1002-1052 | At every moment of a run, folding the audit log through the transition table gives the status (or the status a pending cancel will log), if and only if no outcome is committed over a cancellation and no cancel raises between its commits |
| Replay.TerminalLeftExactly | apps/api/app/services/approval_engine.py:158-189 | From any reachable state a transition leaves a terminal status exactly when it commits an approval's outcome over CANCELLED |
| CancelRace.CancelIsOverwritten | apps/api/app/services/approval_engine.py:158-164 | A concrete reachable run in which a rejection sets a cancelled execution RUNNING again |
| Leases.NoOverlap | apps/api/app/services/agent_runtime.py:297-319 | Two critical sections that are both within the TTL of their claims never coexist |
| Leases.SupersededForever | apps/api/app/services/agent_runtime.py:321-331 | Once its lease was taken over, a caller never holds it again and its release changes no row |
| Leases.ClaimWinsExactly | apps/api/app/services/agent_runtime.py:303-316 | A claim succeeds, and then holds the lease from its own reading of the clock, if and only if the lease is free or older than the TTL at that reading; otherwise it ends without a change |
| Leases.NeverSticks | apps/api/app/services/agent_runtime.py:303-316 | From every reachable state a claim that reads any time more than the TTL later succeeds, whoever crashed and however long the wait |
| Leases.FreshLeaseStands | apps/api/app/services/agent_runtime.py:303-316 | A claim within the TTL of a held lease fails and changes nothing |
| StepBound.SequencesContiguous | apps/api/app/services/agent_runtime.py:941-969 | In every run, overrunning holders included, step sequences are exactly 1..n |
| StepBound.StepsBounded | apps/api/app/services/agent_runtime.py:544-593 | When sections act only within their TTL, n is at most MAX_EXECUTION_STEPS + 2, plus one for each section that did not end |
| StepBound.NoCollision | apps/api/app/services/agent_runtime.py:960-967 | In such runs whoever inserts a step finds its sequence number free: the collision branch is unreachable |
| BoundReached.ExcessIsReal | apps/api/app/services/agent_runtime.py:781-792 | A run without exceptions or takeovers does reach MAX_EXECUTION_STEPS + 2 steps, by the read-only retry and the final step |
| Executions.Execution.ClaimStepping | apps/api/app/services/agent_runtime.py:297-319 | The claim succeeds exactly when the lease is free or stale, and then holds it |
| Executions.Execution.ReleaseStepping | apps/api/app/services/agent_runtime.py:321-331 | Clears the lease only if it is still this claim's |
| Executions.Execution.ClaimStep | apps/api/app/services/agent_runtime.py:940-969 | Inserts a PENDING step if the sequence is free, otherwise None and no change |
| Executions.Execution.FinalizeTerminal | apps/api/app/services/agent_runtime.py:1002-1052 | The step gets its verdict; the status moves only from RUNNING, and the event says which of the two happened |
| Executions.Execution.CommitApproval | apps/api/app/services/tool_gateway.py:860-906 | Admits the approval exactly when the status was RUNNING, and otherwise changes nothing |
| Executions.Execution.ClaimResolution | apps/api/app/services/approval_engine.py:126-140 | Claims exactly a pending, unexpired approval |
| ToolGateway.Execute | apps/api/app/services/tool_gateway.py:84-275 | The whole gateway call is a run of the machine from its entry to the result it returns; refused executions change nothing, and otherwise one request is added for this call, and by registry, schema, permission, policy, risk and tool its row, the result, the approval and the last event are exactly as `Requests` and `Settled` list them; one invocation is traced when the tool is let run and none otherwise; no step and no lease is touched |
| ToolGateway.HandleConditional | apps/api/app/services/tool_gateway.py:347-489 | Policy first, risk unless it blocks, then the joint decision: reply, row, approval, last event and invocations exactly |
| ToolGateway.AssessRiskAndFinalize | apps/api/app/services/tool_gateway.py:544-730 | Risk, block, approval or execution, as a run of the machine; the tool is invoked, successfully or not, exactly when policy and risk both allow, and the reply is what their join and the tool come to |
| ToolGateway.CreateApproval | apps/api/app/services/tool_gateway.py:828-924 | From RUNNING the request waits, the execution waits, and the approval holds the request's own arguments for fifteen minutes; from any other status nothing changes and the call fails |
| ToolGateway.ExecuteAndRecord | apps/api/app/services/tool_gateway.py:926-1037 | One invocation, and result, request row and last event say how the tool ended |
| ApprovalEngine.Resolve | apps/api/app/services/approval_engine.py:80-216 | The whole approve or reject call is a run of the machine; the answer is given by cases on the rows it finds, and the rows it leaves agree: approval, request, execution status, grant and invocation; refusals change nothing |
| ApprovalEngine.ClaimAndFinish | apps/api/app/services/approval_engine.py:126-216 | From any state: the compare-and-set wins exactly on a pending, unexpired approval and then the answer is the outcome; a lost one answers what it found and changes nothing |
| ApprovalEngine.LazyExpire | apps/api/app/services/approval_engine.py:357-412 | A pending approval past its deadline becomes EXPIRED, and neither its request nor the execution waits any longer; anything else is left alone |
| ApprovalEngine.ExecuteApprovedAction | apps/api/app/services/approval_engine.py:218-347 | An approved action succeeds exactly when its tool is registered and its body succeeds, is invoked once if registered, and the request row says which; the execution goes on |
| AgentRuntime.Invoke | apps/api/app/services/agent_runtime.py:195-220 | step, resume, submit and reconcile: each call is a run of the machine; CONFLICT and NOOP are answered exactly when status, lease or waiting step call for it, and change nothing; otherwise the call ends with the lease released, the answer is what the rows show of the step it took or resolved, and for a step what bound, decision and gateway say; only a resume of an action that ran goes on to another step |
| AgentRuntime.RunToolCallStep | apps/api/app/services/agent_runtime.py:692-815 | Executes a claimed step; the answer is EXECUTED, WAITING_APPROVAL, BLOCKED or FAILED exactly as that step is COMPLETED, waiting, BLOCKED or FAILED, as the gateway replied, and as a RUNNING execution is left; a failed read-only tool gets one retry step, and then all this is about that one |
| AgentRuntime.Conclude | apps/api/app/services/agent_runtime.py:700-815 | The branches that end it: answer, step, approval id and logged event go together |
| AgentRuntime.Advance | apps/api/app/services/agent_runtime.py:589-690 | The bound first, then the decision, one or two new steps, and an answer that agrees with the last of them, with the execution's status and with the decision carried out |
| AgentRuntime.Reconcile | apps/api/app/services/agent_runtime.py:466-538 | The answer is that of the resolved step's new status, or of the step that a resume went on to; NOOP changes nothing |
| AgentRuntime.ResolvePendingStep | apps/api/app/services/agent_runtime.py:817-913 | The waiting step becomes BLOCKED if and only if its approval is REJECTED, COMPLETED if and only if it is EXECUTED with an executed request, FAILED if it is EXPIRED or its action failed; otherwise nothing changes |
| AgentRuntime.CancelExecution | apps/api/app/services/agent_runtime.py:333-372 | Cancels, and logs it, exactly from RUNNING or WAITING_APPROVAL |
| Audit.AlwaysGapFree | apps/api/app/services/audit.py:12-36 | For any number of interleaved calls, each split into read and commit, every execution's audit numbers are exactly 1..n |
| Audit.AllOrNothing | apps/api/app/services/audit.py:27-36 | A call that returned has its rows in the table once, consecutively numbered; one that raised has none; five collisions mean the log grew by at least five |
| Audit.LostOnlyToOthers | apps/api/app/models/audit_event.py:18-20 | An attempt appends its rows if nobody else has written to the execution since its read; otherwise it changes nothing, reads again, and raises after the fifth |
| Audit.LoneWriter | apps/api/app/services/audit.py:18-36 | With nobody else at work the first attempt succeeds, numbering on from what is there |
| Audit.AuditTable.CommitChunk | apps/api/app/services/audit.py:18-36 | The loop commits at the first of five attempts during which nobody else wrote to the execution, numbering on from what it finds, and raises without a row of its own if there is none |
| GatewayRows.PolicyRows | apps/api/app/services/tool_gateway.py:503-542 | Events numbered from the base without a gap, exactly the match, if there is one, and the decision's own event, beside the decision's rows |
| Logged.GatewayLogs | apps/api/app/services/tool_gateway.py:123-275 | The audit events of every gateway commit, in order, by the decisions it commits |
| Logged.ApprovalLogs | apps/api/app/services/approval_engine.py:150-347 | The same for every commit of the approval engine |
| Logged.VerdictLogs | apps/api/app/services/agent_runtime.py:1002-1052 | A step's verdict, the execution's status and the event are committed together; a terminal event is written exactly when the execution was RUNNING |
| Logged.DecisionCarried | apps/api/app/services/agent_runtime.py:589-690 | Bound before decision; the step inserted, and the job worked on, carry the very call that was decided, and so does a retry |
| GatewayRows.RiskRows | apps/api/app/services/tool_gateway.py:590-644 | The same for the risk chunk: one event for each signal between the two markers |
| GatewayRows.BlockRows | apps/api/app/services/tool_gateway.py:752-817 | The same for a risk block, where the incident's event comes after two rows that are no events |
| GatewayRows.ApprovalRows | apps/api/app/services/tool_gateway.py:880-906 | The same for the approval request |
| PolicyConditions.ShortCircuitRefines | apps/api/app/services/policy_conditions.py:80-122 | Whenever short-circuit evaluation answers, strong Kleene logic with errors as unknown gives that answer |
| PolicyConditions.RearrangingNeverFlips | apps/api/app/services/policy_conditions.py:94-104 | Reordering clauses at any nodes never swaps True and False |
| PolicyConditions.PermutedIsRearranged | apps/api/app/services/policy_conditions.py:94-104 | A permutation of a node's clauses is such a reordering |
| PolicyConditions.AllExactly | apps/api/app/services/policy_conditions.py:94-98 | `all` is True if and only if every clause is, and False if and only if the first clause that is not True is False |
| PolicyConditions.AnyExactly | apps/api/app/services/policy_conditions.py:100-104 | `any` is False if and only if every clause is, and True if and only if the first clause that is not False is True |
| PolicyConditions.OrderMatters | apps/api/app/services/policy_conditions.py:100-104 | A true clause and a malformed one under `any`: an answer in one order, an error in the other |
| ClauseOrder.ReorderableExactly | apps/api/app/services/policy_conditions.py:94-104 | All orders of a node's clauses give the same reading if and only if no clause errs or none would stop the evaluation (True under `any`, False under `all`) |
| PolicyConditions.OperatorsAgree | apps/api/app/services/policy_conditions.py:69-77 | On numeric values exactly one of lt, eq, gt holds and lte, gte, neq are their combinations; on others all orderings are errors |
| PolicyConditions.InIsNotEq | apps/api/app/services/policy_conditions.py:63-66 | `in` compares as Python does: "5" is not in [5] although eq finds them equal, and True is in [1] although eq does not |
| PolicyConditions.BoolsCount | apps/api/app/services/policy_conditions.py:63-66 | For `in`, True is 1 and False is 0, and equal to no other value of another kind |
| PolicyConditions.EqualitiesDiffer | apps/api/app/services/policy_conditions.py:43-66 | Python's equality holds without `eq` exactly between a boolean and the number it counts as, `eq` without Python's exactly between a numeric string and another value of the same decimal |
| PolicyConditions.InIsEqExactly | apps/api/app/services/policy_conditions.py:43-66 | `in` answers as `eq` on some element would, if and only if some element is equal to both, or the list has elements of both of those kinds or of neither |
| PolicyConditions.EqIsEquivalence | apps/api/app/services/policy_conditions.py:43-56 | The `eq` operator is reflexive, symmetric and transitive across numbers, numeric strings and typed values |
| PolicyConditions.ResolveField | apps/api/app/services/policy_conditions.py:18-28 | The loop yields the value at the dotted path, and fails for empty, missing and null |
| PolicyConditions.LookupComposes | apps/api/app/services/policy_conditions.py:18-28 | A path is followed through every one of its keys |
| PolicyConditions.LeafExactly | apps/api/app/services/policy_conditions.py:109-122 | A comparison answers if and only if it is complete, its operator known and defined on the values, and its field there and not null |
| PolicyConditions.CombinatorExactly | apps/api/app/services/policy_conditions.py:86-104 | A combinator beside another key, or without a non-empty list, is an error |
| PolicyConditions.NoConditionHolds | apps/api/app/services/policy_conditions.py:80-88 | No condition, null or {}, holds; anything else that is no object is an error |
| PolicyEngine.Evaluate | apps/api/app/services/policy_engine.py:47-82 | The engine decides what the declarative specification on the set of rows says: first decisive rank, errors and conflicts block, top priority, least key |
| PolicyEngine.ResolveRank | apps/api/app/services/policy_engine.py:85-124 | One rank: falls through exactly when no condition errs or matches, and otherwise says what the specification says |
| PolicyEngine.OrderIrrelevant | apps/api/app/services/policy_engine.py:63-82 | Decision and matched key do not depend on the order, or repetition, of the rows |
| PolicyEngine.KeysLexical | apps/api/app/services/policy_engine.py:117 | Keys are ordered lexically: by the first difference, and a prefix first |
| PolicyEngine.AllowOnlyIf | apps/api/app/services/policy_engine.py:85-124 | ALLOW only if the first applicable rank has no error and all its top-priority matches say ALLOW |
| PolicyEngine.OwnRowsFirst | apps/api/app/services/policy_engine.py:63-76 | Once a row about the agent itself matches or errs, rows that name no agent change nothing |
| PolicyEngine.TypeRowsNext | apps/api/app/services/policy_engine.py:63-76 | Once a row about the agent's type matches or errs, rows that name neither agent nor type change nothing |
| PolicyEngine.StrangersIrrelevant | apps/api/app/services/policy_engine.py:63-69 | Disabled rows and rows about another tool, agent or type can be added or removed without effect |
| PolicyEngine.ErrorBlocks | apps/api/app/services/policy_engine.py:89-99 | If no narrower row matches or errs, a row whose condition errs blocks, whatever the others say |
| PolicyEngine.ConflictBlocks | apps/api/app/services/policy_engine.py:104-115 | Otherwise two matches of the highest priority that disagree block |
| PolicyEngine.WinnerDecides | apps/api/app/services/policy_engine.py:104-124 | Otherwise they agree, their action is the decision, and the least key names it |
| PolicyEngine.NothingApplies | apps/api/app/services/policy_engine.py:77-82 | If no row that concerns the query matches or errs, the call is blocked |
| PolicyEngine.OthersIrrelevant | apps/api/app/services/policy_engine.py:67-76 | Rows that rank behind a decisive one change nothing |
| RiskEngine.Assess | apps/api/app/services/risk_engine.py:64-146 | Score in 0..100, level its band, action ALLOW below 45 and BLOCK from 85 on, even after hard blocks and detector failures; the signals are those that fired |
| RiskEngine.ScoreExactly | apps/api/app/services/risk_config.py:9-40 | For every combination of signals and every amount: the sum of the configured weights, at most 100, and 100 for the hard blocks and failures |
| RiskEngine.RiskMonotone | apps/api/app/services/risk_engine.py:94-133 | More signals, more failures or a larger amount never lower score, action or combined decision |
| RiskEngine.SingleSignal | apps/api/app/services/risk_config.py:9-40 | What each signal alone comes to: privilege escalation blocks, injection and exfiltration ask for an approval, the others pass |
| RiskEngine.SignalsAddUp | apps/api/app/services/risk_engine.py:94-117 | Sensitive data with external communication (55), and destruction with scope deviation (75), each let through alone, together ask for an approval |
| RiskEngine.NeverDowngrades | apps/api/app/services/risk_engine.py:28-32 | Combining keeps or raises both decisions and invents none |
| RiskEngine.LevelBands | apps/api/app/services/risk_engine.py:35-39 | The band search gives LOW to 29, MEDIUM to 59, HIGH to 84, CRITICAL above |
| RiskEngine.FinancialRiskWeight | apps/api/app/services/risk_signals.py:123-136 | The search over the bands weighs a refund 10, 25 or 40, and 0 where the detector is silent |
| RefundDecision.SeededDecision | apps/api/app/core/seed.py:274-309 | For every amount the seeded conditions, evaluated as JSON, decide ALLOW to 100, REQUIRE_APPROVAL to 1000, BLOCK above, whatever other rows exist |
| RefundDecision.FinalDecisionMonotone | apps/api/app/core/seed.py:274-309 | Over all finite amounts the decision of policy and risk together is monotone in the amount |
| RefundDecision.QuietRefund | apps/api/app/services/risk_config.py:19-38 | With no other signal the risk engine leaves the seeded decision as it is |
| RefundDecision.SeededDeploys | apps/api/app/core/seed.py:310-331 | The seeded rows without conditions let staging deploys through and ask for an approval of production deploys |
| Planner.GroupByAmount | apps/api/app/services/planner.py:84-90 | The dictionary filled in one pass holds, for each amount key in first-seen order, its payments in list order |
| Planner.FindDuplicatePayment | apps/api/app/services/planner.py:92-98 | The loops over the groups yield the duplicate that DuplicateRight describes |
| Planner.DuplicateRight | apps/api/app/services/planner.py:83-98 | None exactly when no payment that shares its amount key has succeeded; otherwise one that has, of the first-seen such group, and first in list order |
| Planner.NeverReproposed | apps/api/app/services/planner.py:71-75 | No history with an attempt at refund, email or a deploy makes the planner propose that tool again |
| Planner.ProposalsGrounded | apps/api/app/services/planner.py:151-246 | A proposed refund is of the chosen duplicate in a completed listing, an email goes to the address in a completed ticket, a deploy is of what was asked for, with keys that depend on execution and tool only |
| Planner.RefundProposed | apps/api/app/services/planner.py:130-166 | The customer is read, then the payments; a refund is proposed if and only if both are read, none was tried and some payment can be refunded |
| Planner.EmailProposed | apps/api/app/services/planner.py:168-206 | The ticket is read; an email is proposed if and only if none was tried and the ticket names an address |
| Planner.DeployProposed | apps/api/app/services/planner.py:208-246 | Without service and version, or for any other objective, the execution fails; otherwise the deploy to the environment asked for is proposed if and only if the state is read and it was not tried |
| Planner.AttemptedOnce | apps/api/app/services/planner.py:130-246 | A run attempts each of these tools at most once |
| Planner.Terminates | apps/api/app/services/agent_runtime.py:589-690 | For every objective and all answers the execution is terminal after at most four advances, with at most six steps |
| PlannedRuns.AdvanceIsRuntime | apps/api/app/services/agent_runtime.py:589-690 | Each advance of such a run leaves the steps and the status that the runtime's own advance leaves, given the same answers |
| PlannedRuns.EndingIsRuntime | apps/api/app/services/agent_runtime.py:817-913 | Where a call waited, `resume` settles it as the run has it, and goes on exactly after an executed approval |
| Payments.OneRefundPerKey | apps/api/app/tools/payments.py:48-97 | Under any interleaving one key has at most one refund, no refund exceeds its payment, all successes with one key report the same row, and every row is the refund that some call asked for and reported as new |
| Payments.ConservedExactly | apps/api/app/tools/payments.py:55-79 | In every run each payment is refunded at most once, and covers that, if and only if no commit finds its key unused and its payment refunded since the check |
| Payments.ConservedWhenExclusive | apps/api/app/tools/payments.py:55-79 | That is so whenever calls on one payment do not overlap between check and commit |
| Payments.LoneCall | apps/api/app/tools/payments.py:48-97 | A call that nobody interrupts does in the interleaved machine what the serial tool does |
| Payments.LoserReplays | apps/api/app/tools/payments.py:76-86 | A call that lost the race for its key rolls back and reports the winner's row as a replay |
| Payments.RaceRefundsTwice | apps/api/app/tools/payments.py:55-79 | A concrete interleaving of two keys that refunds one payment twice |
| Payments.AllSerialConserve | apps/api/app/tools/payments.py:48-97 | In every serial run each payment has at most one refund, which it covers after rounding to cents |
| Payments.ReplayIsIdle | apps/api/app/tools/payments.py:37-53 | Repeating a successful call changes nothing and reports the same row as a replay |
| Payments.RefundTool.Run | apps/api/app/tools/payments.py:48-97 | The tool's body does what the stages of a call do in a row; a new refund is of the payment asked for, with the reason given and the amount to the nearest cent, a replay reports the row stored under the key, and each refusal says what it found |
| Payments.CentsNearest | apps/api/app/tools/payments.py:72-92 | The stored amount is the asked one to the nearest cent, a half up; whole cents are kept |
| Devops.OneDeploymentPerKey | apps/api/app/tools/devops.py:136-171 | Under any interleaving one row per key, every row is one that some call asked for and reported, and successful calls with one key and service give the same answer |
| Devops.RepeatedDeploy | apps/api/app/tools/devops.py:139-144 | With a key a repeated deploy adds nothing and answers the same; without one it deploys again |
| Devops.DeployTool.Deploy | apps/api/app/tools/devops.py:136-171 | The tool's body, statement by statement, does what the stages of a call do in a row; a new row and the answer hold the service, environment, version and key asked for, and a replay reports the row stored under the key |
| Devops.LoneCall | apps/api/app/tools/devops.py:136-171 | A call that nobody interrupts does in the interleaved machine what the serial tool does |
| Devops.LoserReplays | apps/api/app/tools/devops.py:155-171 | A call that lost the race for its key rolls back and reports the winner's row |
| ExternalAction.RetriesConfluent | apps/api/app/services/external_action_service.py:271-296 | However often a request is retried or polled and wherever a call is cut off, the runtime lets at most one submission finish and takes no others but those cut off inside it; a terminal row is the mirror of the finished one's step and answers what it came to |
| ExternalAction.SubmitsExactly | apps/api/app/services/external_action_service.py:286-296 | In every reachable state a call is submitted to the runtime if and only if it gets there and no step is past PENDING |
| ExternalAction.OnceExactly | apps/api/app/services/external_action_service.py:400-416 | A run submits the request at most once if and only if no call gets to the runtime while PENDING steps are all that an earlier one left |
| ExternalAction.SubmittedTwice | apps/api/app/services/external_action_service.py:400-416 | A call cut off inside the runtime and one retry make two submissions |
| ExternalAction.RebuiltIsDirect | apps/api/app/services/external_action_service.py:372-397 | The row rebuilt from the step equals the row that the uninterrupted call would have written |
| ExternalAction.TerminalRepeats | apps/api/app/services/external_action_service.py:278-279 | A terminal answer is repeated unchanged to every later retry |
| ExternalAction.OtherPayloadRefused | apps/api/app/services/external_action_service.py:262-269 | Another payload under the same id is refused at every stage and changes nothing |
| ExternalAction.CallAnswers | apps/api/app/services/external_action_service.py:418-445 | After any run, a call that is neither cut off nor turned away answers EXECUTED, REQUIRES_APPROVAL, BLOCKED or FAILED exactly as the newest step is, names the approval waited for, and gives the final answer unless the row has only now caught up with a waiting step |
| ExternalAction.FirstAnswers | apps/api/app/services/external_action_service.py:298-356 | The first call, if it gets through, says what the gateway replied |
| ExternalAction.TwoCallsFinish | apps/api/app/services/external_action_service.py:281-296 | Two uninterrupted calls give the final answer once the submission has been decided |
| ExternalAction.SettledElsewhere | apps/api/app/services/external_action_service.py:380-384 | A step settled before any retry saw it waiting costs the row the approval's id, and nothing else |
| ExternalAction.ExternalActionService.SubmitAction | apps/api/app/services/external_action_service.py:129-200 | The whole call, assigning the row's fields step by step, does what the specification says at every cut |
| ExternalAction.ExternalActionService.GetStatus | apps/api/app/services/external_action_service.py:202-212 | Reading a waiting request reconciles it, any other is left alone, and what is returned is the row after that |
| ExternalAction.ExternalActionService.FindMatchingStep | apps/api/app/services/external_action_service.py:400-416 | The newest step of that tool that is not pending |
| RateLimit.NeverExceeds | apps/api/app/core/rate_limit.py:28-46 | If no call's clock is behind an earlier one's by more than the skew, no closed interval of the window's length less the skew holds more than max_requests accepted calls of a key |
| RateLimit.SkewIsLost | apps/api/app/core/rate_limit.py:33-34 | For every window and skew a run of that skew puts three calls of an allowed two into an interval one longer |
| RateLimit.RefusedExactly | apps/api/app/core/rate_limit.py:38-46 | With times in lock order, a call is refused if and only if the window ending now already holds max_requests accepted calls of its key |
| RateLimit.KeysIndependent | apps/api/app/core/rate_limit.py:25-35 | What a key is granted does not depend on the calls under other keys |
| RateLimit.Limiter.Check | apps/api/app/core/rate_limit.py:34-46 | The popleft loop evicts exactly the entries older than the window, then refuses or appends |

## Left out

- Routers, middleware, settings, logging, metrics, schemas, migrations, the frontend and the integration
  adapters: no protocol of their own.
- Sessions: identity map, expiry and flush order. A commit is atomic, a rollback changes nothing, and objects
  of one call are not aliased with those of another.
- Rows of other executions: every query and update of the protocol is filtered by execution, so `Rows` holds
  one execution; `Audit` does model many.
- Agent lookup at the head of `ToolGateway.execute`, and NOT_FOUND answers of the runtime: they return before
  anything is read from the rows.
- Result, error and reason texts of requests and steps, incident contents, and `tool_request_id` of protocol
  steps, which the source looks up by the latest request of the same tool.
- SHA-256 and canonical JSON: a payload hash is an opaque value that differs for different payloads.
- Text detectors, objective matching and decimal parsing: inputs. `in` compares numbers by decimal value, so a
  float beyond 2**53 and the integer with the same decimal text count as equal.
- Authentication, agent mapping, tool discovery and roles: finite lookups.
- The limiter's fail-open branch for internal errors, and the planner's exceptions on malformed tool results,
  which the runtime turns into a FAIL decision: the oracle of `Protocol` includes FAIL, `Planner` assumes
  well-formed results.
- Forcing every external source to UNTRUSTED, and the audit rows of external requests: one line each; the
  protocol admits the audit rows at any moment (`Note`).
- Tool bodies other than refund and deploy: opaque effects with a free outcome.
- `start_execution` of an external request that crashes before its row is committed: the orphan execution is
  not modelled, nor are two first submissions that race for the row.
- ExternalAction.RetriesConfluent: calls of one request come one after another on an execution of its own,
  because steps are matched by tool name. Not modelled: a cut between the two attempts of a read-only tool,
  whose failed first step a retry then takes for the outcome, and abandoned submissions so many that they
  reach MAX_EXECUTION_STEPS.
- RateLimit.RefusedExactly: for skew 0; with skew the entries behind a fresh head may be stale, and are
  counted all the same.
- Planner.Terminates: driven by `step()`, and by `resume()` after each approval, as `PlannedRuns` ties to the
  runtime; `step()` instead of `resume()` on a settled approval is covered by the step bound only.
- Audit.AuditTable.CommitChunk: other sessions' commits between a read and a commit are given as a list;
  failures other than the sequence constraint are in `Audit.Apply`.
