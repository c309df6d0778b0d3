/** What the commits of the protocol say: the audit events of each, in order, and the step that a decision
    becomes. */
module Logged {
  import opened Base
  import opened Rows
  import opened Chunks
  import opened Protocol

  function Signals(n: nat): seq<Event> {
    seq(n, i => RiskSignalDetected)
  }

  function PolicySays(matched: bool, action: PolicyAction): seq<Event> {
    if matched then [PolicyMatched, Decided(action)] else [Decided(action)]
  }

  function Decided(action: PolicyAction): Event {
    match action
    case Allow => PolicyAllowed
    case RequireApproval => PolicyApprovalRequired
    case Block => PolicyBlocked
  }

  /** The events of a gateway commit that finds its rows. */
  function GatewaySays(d: Rows, at: GatewayPc, o: Oracle): seq<Event> {
    match at
    case GwEntry => []
    case GwRequested => [ToolRequested]
    case GwCheck =>
      if !o.registered || !o.valid then [ToolFailed]
      else if o.permission.PermitDeny? then [PermissionChecked, ActionDenied]
      else if o.permission.PermitConditional? then [PermissionChecked, PolicyEvaluationStarted]
      else [PermissionChecked]
    case GwPolicy(_) => PolicySays(o.matched, o.policy)
    case GwRisk(_, _) => [RiskAssessmentStarted] + Signals(o.signals) + [RiskAssessed]
    case GwBlock(_, escalated, incident) =>
      (if escalated then [RiskEscalated] else []) + [ActionBlockedByRisk] +
      (if incident then [SecurityIncidentCreated] else [])
    case GwApprove(_, escalated) =>
      if !d.status.Running? then [] else if escalated then [RiskEscalated, ApprovalRequested] else [ApprovalRequested]
    case GwAllow(_) => [ActionAllowed]
    case GwInvoke(_) => []
    case GwRecord(_, success) => if success then [ToolExecuted] else [ToolFailed]
  }

  predicate Finds(w: World, d: Rows, at: GatewayPc, o: Oracle) {
    match at
    case GwPolicy(r) => r < |d.requests|
    case GwRisk(r, _) => r < |d.requests|
    case GwBlock(r, _, _) => r < |d.requests|
    case GwApprove(r, _) => r < |d.requests| && o.now <= w.clock
    case GwRecord(r, _) => r < |d.requests|
    case _ => true
  }

  lemma GatewayLogs(w: World, d: Rows, since: int, job: Job, at: GatewayPc, o: Oracle)
    requires Finds(w, d, at, o)
    ensures GoGateway(w, d, since, job, at, o).rows.log == d.log + GatewaySays(d, at, o)
  {
    assert SignalEvents(o.signals) == Signals(o.signals);
    assert d.log + [] == d.log;
  }

  /** The events of the approval engine's commits. */
  function ApprovalSays(pc: Pc, o: Oracle): seq<Event>
    requires IsApproval(pc)
  {
    match pc
    case ApExpireCommit(_, _) => if o.collided then [] else [ApprovalExpired]
    case ApReject(_) => [ApprovalRejected]
    case ApLogApproved(_) => [ApprovalApproved]
    case ApLogStarted(_) => [ActionExecutionStarted]
    case ApOutcome(_, success) => if success then [ActionExecuted] else [ActionFailed]
    case _ => []
  }

  lemma ApprovalLogs(w: World, d: Rows, pc: Pc, o: Oracle)
    requires IsApproval(pc) && pc.approval < |d.approvals| && d.approvals[pc.approval].request < |d.requests|
    ensures GoApproval(w, d, pc, o).rows.log == d.log + ApprovalSays(pc, o)
  {
    assert d.log + [] == d.log;
  }

  /** The verdict on a step, the status and the event go together: a terminal event is written exactly when
      the execution was RUNNING, and then is what it becomes. */
  ghost predicate Concludes(d: Rows, e: Rows, k: nat, verdict: StepStatus, terminal: ExecutionStatus, event: Event)
    requires k < |d.steps|
  {
    && e.steps == d.steps[k := d.steps[k].(status := verdict)]
    && (if d.status.Running? then e.status == terminal && e.log == d.log + [event]
        else e.status == d.status && e.log == d.log + [StatusAlreadyTerminal])
  }

  ghost predicate Records(d: Rows, e: Rows, k: nat, verdict: StepStatus, approval: Option<nat>, event: Event)
    requires k < |d.steps|
  {
    && e.steps == d.steps[k := d.steps[k].(status := verdict, approval := approval)]
    && e.status == d.status && e.log == d.log + [event]
  }

  lemma VerdictLogs(w: World, d: Rows, since: int, k: nat, o: Oracle)
    requires k < |d.steps|
    ensures forall job: Job, r :: job.step == k ==>
      Records(d, GoRuntime(w, d, Finalizing(since, job, ResExecuted(r)), o).rows, k, StepCompleted, None, StepFinished)
    ensures forall job: Job, a :: job.step == k ==>
      Records(d, GoRuntime(w, d, Finalizing(since, job, ResApproval(a)), o).rows, k, StepWaiting, Some(a),
              ExecutionWaiting)
    ensures forall job: Job :: job.step == k ==>
      Concludes(d, GoRuntime(w, d, Finalizing(since, job, ResBlocked), o).rows, k, StepBlocked,
                ExecutionStatus.Blocked, ExecutionBlocked)
    ensures forall job: Job :: job.step == k && !Retries(w, job) ==>
      Concludes(d, GoRuntime(w, d, Finalizing(since, job, ResFailed), o).rows, k, StepFailed,
                ExecutionStatus.Failed, ExecutionFailed)
    ensures Concludes(d, GoRuntime(w, d, Closing(since, k, DoComplete), o).rows, k, StepCompleted,
                      ExecutionStatus.Completed, ExecutionCompleted)
    ensures forall plan: Plan :: plan.DoFail? || plan.DoMaxSteps? ==>
      Concludes(d, GoRuntime(w, d, Closing(since, k, plan), o).rows, k, StepFailed,
                ExecutionStatus.Failed, ExecutionFailed)
  {
  }

  /** The step that a decision becomes, and the call that it is for: the bound's, the external caller's, or
      the planner's. */
  lemma DecisionCarried(w: World, d: Rows, role: Role, since: int, seen: nat, next: nat, o: Oracle)
    requires SequenceFree(d.steps, next)
    ensures var p := GoRuntime(w, d, Deciding(role, since, seen), o).pc;
      && p.ReadingMax? && p.seen == seen
      && (seen >= w.cfg.maxSteps ==> p.plan.DoMaxSteps?)
      && (seen < w.cfg.maxSteps && role.Submitter? ==> p.plan == DoCall(role.call))
      && (seen < w.cfg.maxSteps && !role.Submitter? ==> p.plan == if o.plan.DoMaxSteps? then DoFail else o.plan)
    ensures forall plan: Plan ::
      var out := GoRuntime(w, d, Inserting(since, plan, seen, next), o);
      out.rows.steps == d.steps + [Step(next, if plan.DoCall? then ToolCall(plan.call)
                                              else if plan.DoMaxSteps? then MaxStepsStep else FinalStep,
                                        StepPending, None)]
      && out.pc == if plan.DoCall? then Announcing(since, Job(|d.steps|, plan.call, true))
                   else Closing(since, |d.steps|, plan)
    ensures forall job: Job ::
      var out := GoRuntime(w, d, RetryInserting(since, job, next), o);
      out.rows.steps == d.steps + [Step(next, ToolCall(job.call), StepPending, None)]
      && out.pc == Gateway(since, Job(|d.steps|, job.call, false), GwEntry)
  {
    hide SequenceFree;
  }
}
