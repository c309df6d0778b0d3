/** The database rows of ONE execution and the atomic commits that the services make on them.

    Rows of other executions never meet these: every query and every UPDATE of the protocol is
    filtered by execution id.  A row's id is its index in the table it belongs to; tables only grow.
    `trace` is history, not a table: it records, in commit order, what the mediation theorem talks
    about, and the tool invocations themselves. */
module Rows {
  import opened Base

  datatype ExecutionStatus = Created | Running | WaitingApproval | Completed | Failed | Blocked | Cancelled

  predicate Terminal(s: ExecutionStatus) {
    s.Completed? || s.Failed? || s.Blocked? || s.Cancelled?
  }

  datatype RequestStatus = Requested | RequiresApproval | Executed | Denied | RequestFailed

  /** A `tool_requests` row with the PolicyDecision and RiskAssessment rows that refer to it. */
  datatype Request = Request(
    call: Call,
    permission: Permission,
    status: RequestStatus,
    policy: Option<PolicyAction>,
    risk: Option<PolicyAction>)

  datatype ApprovalStatus = Pending | Approved | Rejected | Expired | ApprovalExecuted

  datatype Approval = Approval(
    request: nat,
    call: Call,
    status: ApprovalStatus,
    expiresAt: int,
    resolvedAt: Option<int>)

  datatype StepStatus = StepPending | StepCompleted | StepWaiting | StepBlocked | StepFailed

  datatype StepKind = ToolCall(call: Call) | FinalStep | MaxStepsStep

  /** An `execution_steps` row; `approval` is the `approval_request_id` kept in its output. */
  datatype Step = Step(
    sequence: nat,
    kind: StepKind,
    status: StepStatus,
    approval: Option<nat>)

  datatype Lease = Lease(holder: nat, claimedAt: int)

  /** The audit event types that the protocol writes. */
  datatype Event =
    | ExecutionStarted | ExecutionCompleted | ExecutionFailed | ExecutionBlocked | ExecutionCancelled
    | StatusAlreadyTerminal | StepStarted | StepFinished | ExecutionWaiting | ExecutionResumed
    | ToolRequested | PermissionChecked | ActionDenied | ActionAllowed | ToolExecuted | ToolFailed
    | PolicyEvaluationStarted | PolicyMatched | PolicyAllowed | PolicyApprovalRequired | PolicyBlocked
    | RiskAssessmentStarted | RiskSignalDetected | RiskAssessed | RiskEscalated | ActionBlockedByRisk
    | SecurityIncidentCreated
    | ApprovalRequested | ApprovalApproved | ApprovalRejected | ApprovalExpired
    | ActionExecutionStarted | ActionExecuted | ActionFailed
    | ExternalRequestReceived | ExternalActionCompleted

  datatype TraceEvent =
    | Permitted(request: nat, call: Call, permission: Permission)
    | PolicyDecided(request: nat, action: PolicyAction)
    | RiskDecided(request: nat, action: PolicyAction)
    | Granted(approval: nat, request: nat, call: Call)
    | Invoked(request: nat, call: Call)

  datatype Rows = Rows(
    status: ExecutionStatus,
    lease: Option<Lease>,
    requests: seq<Request>,
    approvals: seq<Approval>,
    steps: seq<Step>,
    log: seq<Event>,
    trace: seq<TraceEvent>)
  {
    predicate OpenRequest(r: nat) {
      r < |requests| && requests[r].status.RequiresApproval?
    }

    /** Approval `a` is outstanding: still PENDING, or claimed with its outcome not yet committed.
        Either way its tool request is still REQUIRES_APPROVAL. */
    predicate Outstanding(a: nat) {
      a < |approvals| && OpenRequest(approvals[a].request)
    }
  }

  // ---------------------------------------------------------------- row updates

  function WithRequest(d: Rows, r: nat, q: Request): Rows
    requires r < |d.requests|
  {
    d.(requests := d.requests[r := q])
  }

  function SetRequestStatus(d: Rows, r: nat, st: RequestStatus): Rows
    requires r < |d.requests|
  {
    WithRequest(d, r, d.requests[r].(status := st))
  }

  function SetApprovalStatus(d: Rows, a: nat, st: ApprovalStatus): Rows
    requires a < |d.approvals|
  {
    d.(approvals := d.approvals[a := d.approvals[a].(status := st)])
  }

  function Log(d: Rows, events: seq<Event>): Rows {
    d.(log := d.log + events)
  }

  function Trace(d: Rows, t: TraceEvent): Rows {
    d.(trace := d.trace + [t])
  }

  // ---------------------------------------------------------------- agent_runtime.py

  /** `start_execution`'s second commit. */
  function StartExecution(d: Rows): Rows {
    Log(d.(status := if d.status.Created? then Running else d.status), [ExecutionStarted])
  }

  /** WHERE clause of `_claim_stepping`. */
  predicate LeaseClaimable(d: Rows, now: int, ttl: int) {
    d.lease.None? || d.lease.value.claimedAt < now - ttl
  }

  function ClaimLease(d: Rows, me: nat, now: int, ttl: int): Rows {
    if LeaseClaimable(d, now, ttl) then d.(lease := Some(Lease(me, now))) else d
  }

  function ReleaseLease(d: Rows, me: nat): Rows {
    if d.lease.Some? && d.lease.value.holder == me then d.(lease := None) else d
  }

  predicate Cancellable(d: Rows) {
    d.status.Running? || d.status.WaitingApproval?
  }

  function Cancel(d: Rows): Rows {
    if Cancellable(d) then d.(status := Cancelled) else d
  }

  /** `select max(sequence)`, or 0. */
  function MaxSequence(steps: seq<Step>): nat {
    if |steps| == 0 then 0
    else
      var m := MaxSequence(steps[..|steps| - 1]);
      var q := steps[|steps| - 1].sequence;
      if q > m then q else m
  }

  /** UNIQUE(execution_id, sequence) on execution_steps. */
  predicate SequenceFree(steps: seq<Step>, q: nat) {
    forall i :: 0 <= i < |steps| ==> steps[i].sequence != q
  }

  function InsertStep(d: Rows, q: nat, kind: StepKind): Rows {
    d.(steps := d.steps + [Step(q, kind, StepPending, None)])
  }

  /** `_persist_step_only`, and the row half of `_finalize`. */
  function SetStep(d: Rows, k: nat, st: StepStatus, approval: Option<nat>): Rows
    requires k < |d.steps|
  {
    d.(steps := d.steps[k := d.steps[k].(status := st, approval := approval)])
  }

  /** `_finalize` without a terminal status. */
  function FinalizeStep(d: Rows, k: nat, st: StepStatus, approval: Option<nat>, event: Event): Rows
    requires k < |d.steps|
  {
    Log(SetStep(d, k, st, approval), [event])
  }

  function TerminalEvent(t: ExecutionStatus): Event
    requires t.Completed? || t.Failed? || t.Blocked?
  {
    match t
    case Completed => ExecutionCompleted
    case Failed => ExecutionFailed
    case Blocked => ExecutionBlocked
  }

  /** `_finalize` with a terminal status: compare-and-set from RUNNING, and the event that says
      which of the two happened. */
  function FinalizeExecution(d: Rows, k: nat, st: StepStatus, t: ExecutionStatus): Rows
    requires k < |d.steps|
    requires t.Completed? || t.Failed? || t.Blocked?
  {
    var e := SetStep(d, k, st, d.steps[k].approval);
    if d.status.Running? then Log(e.(status := t), [TerminalEvent(t)]) else Log(e, [StatusAlreadyTerminal])
  }

  // ---------------------------------------------------------------- tool_gateway.py

  function NewRequest(d: Rows, call: Call, permission: Permission, st: RequestStatus): Rows {
    var e := d.(requests := d.requests + [Request(call, permission, st, None, None)]);
    Trace(e, Permitted(|d.requests|, call, permission))
  }

  function RecordPolicy(d: Rows, r: nat, action: PolicyAction): Rows
    requires r < |d.requests|
  {
    Trace(WithRequest(d, r, d.requests[r].(policy := Some(action))), PolicyDecided(r, action))
  }

  function RecordRisk(d: Rows, r: nat, action: PolicyAction): Rows
    requires r < |d.requests|
  {
    Trace(WithRequest(d, r, d.requests[r].(risk := Some(action))), RiskDecided(r, action))
  }

  const APPROVAL_EXPIRY: int := 15 * 60 * 1_000_000 // fifteen minutes in microseconds

  /** `_create_approval_and_commit` when its compare-and-set from RUNNING wins. */
  function AdmitApproval(d: Rows, r: nat, now: int): Rows
    requires r < |d.requests|
  {
    var q := SetRequestStatus(d, r, RequiresApproval);
    q.(status := WaitingApproval,
       approvals := d.approvals + [Approval(r, d.requests[r].call, Pending, now + APPROVAL_EXPIRY, None)])
  }

  // ---------------------------------------------------------------- approval_engine.py

  /** WHERE clause of the claim in `_resolve`. */
  predicate ApprovalClaimable(d: Rows, a: nat, now: int)
    requires a < |d.approvals|
  {
    d.approvals[a].status.Pending? && d.approvals[a].expiresAt > now
  }

  function ClaimApproval(d: Rows, a: nat, approve: bool, now: int): Rows
    requires a < |d.approvals|
  {
    if !ApprovalClaimable(d, a, now) then d
    else
      var p := d.approvals[a];
      var claimed := p.(status := if approve then Approved else Rejected, resolvedAt := Some(now));
      var e := d.(approvals := d.approvals[a := claimed]);
      if approve then Trace(e, Granted(a, p.request, p.call)) else e
  }

  function ClaimExpiry(d: Rows, a: nat, now: int): Rows
    requires a < |d.approvals|
  {
    if !d.approvals[a].status.Pending? then d
    else d.(approvals := d.approvals[a := d.approvals[a].(status := Expired, resolvedAt := Some(now))])
  }

  /** `build_rejection_rows`: the execution is set to RUNNING without looking at its status. */
  function CommitRejection(d: Rows, a: nat): Rows
    requires a < |d.approvals| && d.approvals[a].request < |d.requests|
  {
    Log(SetRequestStatus(d, d.approvals[a].request, Denied).(status := Running), [ApprovalRejected])
  }

  /** `build_outcome_rows`: also an unconditional RUNNING. */
  function CommitOutcome(d: Rows, a: nat, success: bool): Rows
    requires a < |d.approvals| && d.approvals[a].request < |d.requests|
  {
    var e := SetRequestStatus(d, d.approvals[a].request, if success then Executed else RequestFailed);
    Log(SetApprovalStatus(e, a, ApprovalExecuted).(status := Running),
      [if success then ActionExecuted else ActionFailed])
  }

  /** `build_expiry_rows`: writes RUNNING when the status it READ was WAITING_APPROVAL. */
  function CommitExpiry(d: Rows, a: nat, sawWaiting: bool): Rows
    requires a < |d.approvals| && d.approvals[a].request < |d.requests|
  {
    var r := d.approvals[a].request;
    var e := if d.requests[r].status.RequiresApproval? then SetRequestStatus(d, r, Denied) else d;
    Log(if sawWaiting then e.(status := Running) else e, [ApprovalExpired])
  }
}
