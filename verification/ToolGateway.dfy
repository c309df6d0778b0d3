/** `ToolGateway.execute` as it is written; every call is a run of the machine. */
module ToolGateway {
  import opened Base
  import opened Rows
  import opened Chunks
  import opened Protocol
  import opened Alone
  import opened Executions

  // ---------------------------------------------------------------- what a call comes to

  /** `GatewayResult.status`. */
  datatype Reply = RepliesExecuted | RepliesApproval | RepliesBlocked | RepliesFailed

  function KindOf(res: GatewayResult): Reply {
    match res
    case ResExecuted(_) => RepliesExecuted
    case ResApproval(_) => RepliesApproval
    case ResBlocked => RepliesBlocked
    case ResFailed => RepliesFailed
  }

  /** The decision that policy and risk reach together; a direct ALLOW asks no policy. */
  function FinalDecision(o: Oracle): PolicyAction {
    CombineDecisions(if o.permission.PermitConditional? then o.policy else Allow, o.risk)
  }

  /** A policy BLOCK ends the call before risk is assessed. */
  predicate PolicyBlocks(o: Oracle) {
    o.permission.PermitConditional? && o.policy.Block?
  }

  /** What policy, risk and the tool say of an admitted call. */
  function DecidedReply(o: Oracle, final: PolicyAction, st: ExecutionStatus): Reply {
    match final
    case Block => RepliesBlocked
    case RequireApproval => if st.Running? then RepliesApproval else RepliesFailed
    case Allow => if o.success then RepliesExecuted else RepliesFailed
  }

  /** The tool is known, its arguments are valid and the agent may use it. */
  predicate Admissible(o: Oracle) {
    o.registered && o.valid && !o.permission.PermitDeny?
  }

  /** The answer to a call, from the outside's answers and the status it finds. */
  function ReplyTo(o: Oracle, st: ExecutionStatus): Reply {
    if !GatewayOpen(st) || !o.registered || !o.valid then RepliesFailed
    else if o.permission.PermitDeny? || PolicyBlocks(o) then RepliesBlocked
    else DecidedReply(o, FinalDecision(o), st)
  }

  /** The tool body runs in this call, whatever it then answers. */
  predicate RunsTool(o: Oracle, st: ExecutionStatus) {
    GatewayOpen(st) && Admissible(o) && !PolicyBlocks(o) && FinalDecision(o).Allow?
  }

  /** The tool invocations in a trace. */
  ghost function Invocations(t: seq<TraceEvent>): seq<TraceEvent> {
    if |t| == 0 then []
    else Invocations(t[..|t| - 1]) + (if t[|t| - 1].Invoked? then [t[|t| - 1]] else [])
  }

  lemma OneMore(t: seq<TraceEvent>, e: TraceEvent)
    ensures Invocations(t + [e]) == Invocations(t) + (if e.Invoked? then [e] else [])
  {
    assert (t + [e])[..|t|] == t;
  }

  /** Decisions are no invocations. */
  lemma TwoMore(t: seq<TraceEvent>, e: TraceEvent, f: TraceEvent)
    requires !e.Invoked? && !f.Invoked?
    ensures Invocations(t + [e]) == Invocations(t) && Invocations(t + [e] + [f]) == Invocations(t)
  {
    OneMore(t, e);
    OneMore(t + [e], f);
  }

  /** The last event in the log. */
  ghost predicate Ends(log: seq<Event>, e: Event) {
    |log| > 0 && log[|log| - 1] == e
  }

  /** What a call that was let through to its decisions leaves in its request's row, in the approvals and
      at the end of the log, with the result it returns. */
  ghost predicate Settled(policy: PolicyAction, o: Oracle, d: Rows, e: Rows, r: nat, was: RequestStatus,
      res: GatewayResult)
  {
    r < |e.requests| &&
    var st := e.requests[r].status;
    if policy.Block? then res.ResBlocked? && st.Denied? && Ends(e.log, PolicyBlocked)
    else if o.risk.Block? then
      && res.ResBlocked? && st.Denied?
      && Ends(e.log, if o.signals > 0 then SecurityIncidentCreated else ActionBlockedByRisk)
    else if policy.RequireApproval? || o.risk.RequireApproval? then
      if d.status.Running? then
        && res == ResApproval(|d.approvals|) && st.RequiresApproval? && Ends(e.log, ApprovalRequested)
        && e.approvals == d.approvals + [Approval(r, e.requests[r].call, Pending, o.now + 900_000_000, None)]
      else res.ResFailed? && st == was
    else if o.success then res == ResExecuted(r) && st.Executed? && Ends(e.log, ToolExecuted)
    else res.ResFailed? && st.RequestFailed? && Ends(e.log, ToolFailed)
  }

  lemma SettledSince(policy: PolicyAction, o: Oracle, d: Rows, f: Rows, e: Rows, r: nat, was: RequestStatus,
                     res: GatewayResult)
    requires f.approvals == d.approvals && f.status == d.status
    ensures Settled(policy, o, d, e, r, was, res) <==> Settled(policy, o, f, e, r, was, res)
  {
  }

  lemma PolicySettled(o: Oracle, d: Rows, e: Rows, r: nat, log: seq<Event>)
    requires o.policy.Block? && r < |d.requests| == |e.requests| && e.requests[r].status.Denied?
    requires e.log == log + PolicyChunk(o.matched, o.policy)
    ensures Settled(o.policy, o, d, e, r, d.requests[r].status, ResBlocked)
  {
  }

  /** One request is added, for this call; registry, schema and permission may end it at once. */
  ghost predicate Requests(o: Oracle, call: Call, d: Rows, e: Rows, res: GatewayResult) {
    var r := |d.requests|;
    |e.requests| == r + 1 && e.requests[r].call == call &&
    var st := e.requests[r].status;
    if !o.registered || !o.valid then res.ResFailed? && st.RequestFailed? && Ends(e.log, ToolFailed)
    else if o.permission.PermitDeny? then res.ResBlocked? && st.Denied? && Ends(e.log, ActionDenied)
    else Settled(if o.permission.PermitConditional? then o.policy else Allow, o, d, e, r, Requested, res)
  }

  // ---------------------------------------------------------------- the call

  /** The tool runs once, and its outcome is recorded on the request. */
  method ExecuteAndRecord(x: Execution, w: World, env: Env, since: int, job: Job, r: nat) returns (res: GatewayResult)
    requires r < |x.requests|
    modifies x
    ensures x.steps == old(x.steps) && x.HeldLease() == old(x.HeldLease())
    ensures x.status == old(x.status)
    ensures res == if Answer(env, Gateway(since, job, GwInvoke(r))).success then ResExecuted(r) else ResFailed
    ensures Invocations(x.trace) == Invocations(old(x.trace)) + [Invoked(r, job.call)]
    ensures |x.requests| == |old(x.requests)| && x.requests[r].call == old(x.requests)[r].call
    ensures if res.ResExecuted? then x.requests[r].status.Executed? && Ends(x.events, ToolExecuted)
      else x.requests[r].status.RequestFailed? && Ends(x.events, ToolFailed)
    ensures Reaches(w, env, old(x.Table()), Gateway(since, job, GwInvoke(r)), x.Table(), Finalizing(since, job, res))
  {
    hide Reaches, GoRuntime, GoApproval, Invocations, GoGwCheck, GoGwPolicy, GoGwRisk, GoGwApprove;
    ghost var d := x.Table();
    ghost var p := Gateway(since, job, GwInvoke(r));
    var success := Answer(env, Gateway(since, job, GwInvoke(r))).success;
    Here(w, env, d, p);
    OneMore(x.trace, Invoked(r, job.call));
    x.Invoke(r, job.call);
    ghost var e := x.Table();
    Then(w, env, d, p, d, p, e, Gateway(since, job, GwRecord(r, success)));
    if success {
      x.SetRequest(r, Executed, [ToolExecuted]);
      res := ResExecuted(r);
    } else {
      x.SetRequest(r, RequestFailed, [ToolFailed]);
      res := ResFailed;
    }
    Then(w, env, d, p, e, Gateway(since, job, GwRecord(r, success)), x.Table(), Finalizing(since, job, res));
  }

  /** `_finalize_risk_block`. */
  method FinalizeRiskBlock(x: Execution, w: World, o: Oracle, since: int, job: Job, r: nat, escalated: bool)
    returns (res: GatewayResult)
    requires r < |x.requests|
    modifies x
    ensures Same(old(x.Table()), x.Table()) && x.status == old(x.status)
    ensures res.ResBlocked? && x.requests[r].status.Denied? && x.requests[r].call == old(x.requests)[r].call
    ensures Ends(x.events, if o.signals > 0 then SecurityIncidentCreated else ActionBlockedByRisk)
    ensures GoGateway(w, old(x.Table()), since, job, GwBlock(r, escalated, o.signals > 0), o) ==
      Out(x.Table(), Finalizing(since, job, res))
  {
    x.SetRequest(r, Denied, RiskBlockChunk(escalated, o.signals > 0));
    return ResBlocked;
  }

  /** `_create_approval_and_commit`: an execution that is no longer RUNNING takes no approval. */
  method CreateApproval(x: Execution, w: World, o: Oracle, since: int, job: Job, r: nat, escalated: bool)
    returns (res: GatewayResult)
    requires r < |x.requests| && o.now <= w.clock
    modifies x
    ensures Same(old(x.Table()), x.Table()) && x.requests[r].call == old(x.requests)[r].call
    ensures if old(x.status).Running? then
        && res == ResApproval(|old(x.approvals)|) && x.requests[r].status.RequiresApproval?
        && x.status.WaitingApproval? && Ends(x.events, ApprovalRequested)
        && x.approvals == old(x.approvals) + [Approval(r, x.requests[r].call, Pending, o.now + 900_000_000, None)]
      else res.ResFailed? && x.Table() == old(x.Table())
    ensures GoGateway(w, old(x.Table()), since, job, GwApprove(r, escalated), o) ==
      Out(x.Table(), Finalizing(since, job, res))
  {
    var a := |x.approvals|;
    var admitted := x.CommitApproval(r, escalated, o.now);
    return if admitted then ResApproval(a) else ResFailed;
  }

  /** What only the runtime changes, and the invocations so far. */
  ghost predicate Same(d: Rows, e: Rows) {
    e.steps == d.steps && e.lease == d.lease && e.trace == d.trace && |e.requests| == |d.requests|
  }

  /** From the risk assessment on: block, ask for an approval, or run. */
  method AssessRiskAndFinalize(x: Execution, w: World, env: Env, since: int, job: Job, r: nat, policy: PolicyAction)
    returns (res: GatewayResult)
    requires r < |x.requests| && Past(w, env)
    modifies x
    ensures x.steps == old(x.steps) && x.HeldLease() == old(x.HeldLease())
    ensures x.status == if res.ResApproval? then WaitingApproval else old(x.status)
    ensures |x.requests| == |old(x.requests)| && x.requests[r].call == old(x.requests)[r].call
    ensures var o := Answer(env, Gateway(since, job, GwRisk(r, policy)));
      !policy.Block? ==> Settled(policy, o, old(x.Table()), x.Table(), r, old(x.requests)[r].status, res)
    ensures var o := Answer(env, Gateway(since, job, GwRisk(r, policy)));
      && KindOf(res) == DecidedReply(o, CombineDecisions(policy, o.risk), old(x.status))
      && Invocations(x.trace) ==
           Invocations(old(x.trace)) + (if policy.Allow? && o.risk.Allow? then [Invoked(r, job.call)] else [])
    ensures Reaches(w, env, old(x.Table()), Gateway(since, job, GwRisk(r, policy)), x.Table(),
      Finalizing(since, job, res))
  {
    hide Reaches, GoRuntime, GoApproval, Invocations, Ends, RiskChunk;
    ghost var d := x.Table();
    ghost var p := Gateway(since, job, GwRisk(r, policy));
    var o := Answer(env, Gateway(since, job, GwRisk(r, policy)));
    Here(w, env, d, p);
    TwoMore(x.trace, PolicyDecided(r, policy), RiskDecided(r, o.risk));
    OneMore(x.trace, RiskDecided(r, o.risk));
    x.CommitRisk(r, policy, o.risk, o.signals);
    ghost var e := x.Table();
    var final := CombineDecisions(policy, o.risk);
    var escalated := final != policy;
    ghost var at := if final.Block? then GwBlock(r, escalated, o.signals > 0)
                    else if final.RequireApproval? then GwApprove(r, escalated)
                    else GwAllow(r);
    Then(w, env, d, p, d, p, e, Gateway(since, job, at));
    if final.Block? {
      res := FinalizeRiskBlock(x, w, o, since, job, r, escalated);
      Then(w, env, d, p, e, Gateway(since, job, at), x.Table(), Finalizing(since, job, res));
    } else if final.RequireApproval? {
      res := CreateApproval(x, w, o, since, job, r, escalated);
      Then(w, env, d, p, e, Gateway(since, job, at), x.Table(), Finalizing(since, job, res));
    } else {
      x.AddEvents([ActionAllowed]);
      ghost var f := x.Table();
      Then(w, env, d, p, e, Gateway(since, job, at), f, Gateway(since, job, GwInvoke(r)));
      res := ExecuteAndRecord(x, w, env, since, job, r);
      Chain(w, env, d, p, f, Gateway(since, job, GwInvoke(r)), x.Table(), Finalizing(since, job, res));
    }
  }

  /** CONDITIONAL: the policy decides first, and only a BLOCK ends here. */
  method HandleConditional(x: Execution, w: World, env: Env, since: int, job: Job, r: nat) returns (res: GatewayResult)
    requires r < |x.requests| && Past(w, env)
    modifies x
    ensures x.steps == old(x.steps) && x.HeldLease() == old(x.HeldLease())
    ensures x.status == if res.ResApproval? then WaitingApproval else old(x.status)
    ensures |x.requests| == |old(x.requests)| && x.requests[r].call == old(x.requests)[r].call
    ensures var o := Answer(env, Gateway(since, job, GwPolicy(r)));
      Settled(o.policy, o, old(x.Table()), x.Table(), r, old(x.requests)[r].status, res)
    ensures var o := Answer(env, Gateway(since, job, GwPolicy(r)));
      && KindOf(res) == (if o.policy.Block? then RepliesBlocked
                         else DecidedReply(o, CombineDecisions(o.policy, o.risk), old(x.status)))
      && Invocations(x.trace) ==
           Invocations(old(x.trace)) + (if o.policy.Allow? && o.risk.Allow? then [Invoked(r, job.call)] else [])
    ensures Reaches(w, env, old(x.Table()), Gateway(since, job, GwPolicy(r)), x.Table(), Finalizing(since, job, res))
  {
    hide Reaches, GoRuntime, GoApproval, Invocations, GoGwCheck, GoGwRisk, GoGwApprove, Settled, PolicyChunk;
    ghost var d := x.Table();
    ghost var p := Gateway(since, job, GwPolicy(r));
    var o := Answer(env, Gateway(since, job, GwPolicy(r)));
    Here(w, env, d, p);
    OneMore(x.trace, PolicyDecided(r, o.policy));
    x.CommitPolicy(r, o.policy, o.matched);
    ghost var e := x.Table();
    if o.policy.Block? {
      res := ResBlocked;
      Then(w, env, d, p, d, p, e, Finalizing(since, job, res));
      PolicySettled(o, d, e, r, d.log);
    } else {
      Then(w, env, d, p, d, p, e, Gateway(since, job, GwRisk(r, o.policy)));
      res := AssessRiskAndFinalize(x, w, env, since, job, r, o.policy);
      Chain(w, env, d, p, e, Gateway(since, job, GwRisk(r, o.policy)), x.Table(), Finalizing(since, job, res));
      SettledSince(o.policy, o, d, e, x.Table(), r, d.requests[r].status, res);
    }
  }

  /** `execute`: registry, schema, permission, then policy and risk. */
  method Execute(x: Execution, w: World, env: Env, since: int, job: Job) returns (res: GatewayResult)
    requires Past(w, env)
    modifies x
    ensures x.steps == old(x.steps) && x.HeldLease() == old(x.HeldLease())
    ensures !GatewayOpen(old(x.status)) ==> x.Table() == old(x.Table())
    ensures x.status == if res.ResApproval? then WaitingApproval else old(x.status)
    ensures var o := Answer(env, Gateway(since, job, GwEntry));
      && KindOf(res) == ReplyTo(o, old(x.status))
      && Invocations(x.trace) == Invocations(old(x.trace)) +
           (if RunsTool(o, old(x.status)) then [Invoked(|old(x.requests)|, job.call)] else [])
    ensures if !old(x.status).Running? && !old(x.status).Created? then res.ResFailed? && x.Table() == old(x.Table())
      else Requests(Answer(env, Gateway(since, job, GwEntry)), job.call, old(x.Table()), x.Table(), res)
    ensures Reaches(w, env, old(x.Table()), Gateway(since, job, GwEntry), x.Table(), Finalizing(since, job, res))
  {
    hide Reaches, GoRuntime, GoApproval, Invocations;
    ghost var d := x.Table();
    ghost var p := Gateway(since, job, GwEntry);
    Here(w, env, d, p);
    if Terminal(x.status) || x.status.WaitingApproval? {
      res := ResFailed;
      Then(w, env, d, p, d, p, d, Finalizing(since, job, res));
      return;
    }
    Then(w, env, d, p, d, p, d, Gateway(since, job, GwRequested));
    x.AddEvents([ToolRequested]);
    ghost var e := x.Table();
    Then(w, env, d, p, d, Gateway(since, job, GwRequested), e, Gateway(since, job, GwCheck));
    res := Admit(x, w, env, since, job);
    Chain(w, env, d, p, e, Gateway(since, job, GwCheck), x.Table(), Finalizing(since, job, res));
  }

  /** The part of `execute` after its TOOL_REQUESTED event. */
  method Admit(x: Execution, w: World, env: Env, since: int, job: Job) returns (res: GatewayResult)
    requires Past(w, env)
    modifies x
    ensures x.steps == old(x.steps) && x.HeldLease() == old(x.HeldLease())
    ensures x.status == if res.ResApproval? then WaitingApproval else old(x.status)
    ensures var o, st := Answer(env, Gateway(since, job, GwCheck)), old(x.status);
      GatewayOpen(st) ==>
        && KindOf(res) == ReplyTo(o, st)
        && Invocations(x.trace) == Invocations(old(x.trace)) +
             (if RunsTool(o, st) then [Invoked(|old(x.requests)|, job.call)] else [])
    ensures Requests(Answer(env, Gateway(since, job, GwCheck)), job.call, old(x.Table()), x.Table(), res)
    ensures Reaches(w, env, old(x.Table()), Gateway(since, job, GwCheck), x.Table(), Finalizing(since, job, res))
  {
    hide Reaches, GoRuntime, GoApproval, Invocations, Settled, DecidedReply;
    ghost var e := x.Table();
    ghost var p := Gateway(since, job, GwCheck);
    var o := Answer(env, Gateway(since, job, GwCheck));
    OneMore(x.trace, Permitted(|x.requests|, job.call, if o.registered && o.valid then o.permission else PermitDeny));
    Here(w, env, e, p);
    if !o.registered || !o.valid {
      var _ := x.AddRequest(job.call, PermitDeny, RequestFailed, [ToolFailed]);
      res := ResFailed;
      Then(w, env, e, p, e, p, x.Table(), Finalizing(since, job, res));
    } else if o.permission.PermitDeny? {
      var _ := x.AddRequest(job.call, PermitDeny, Denied, [PermissionChecked, ActionDenied]);
      res := ResBlocked;
      Then(w, env, e, p, e, p, x.Table(), Finalizing(since, job, res));
    } else if o.permission.PermitConditional? {
      var r := x.AddRequest(job.call, PermitConditional, Requested, [PermissionChecked, PolicyEvaluationStarted]);
      ghost var f := x.Table();
      Then(w, env, e, p, e, p, f, Gateway(since, job, GwPolicy(r)));
      res := HandleConditional(x, w, env, since, job, r);
      Chain(w, env, e, p, f, Gateway(since, job, GwPolicy(r)), x.Table(), Finalizing(since, job, res));
      SettledSince(o.policy, o, e, f, x.Table(), r, Requested, res);
    } else {
      var r := x.AddRequest(job.call, PermitAllow, Requested, [PermissionChecked]);
      ghost var f := x.Table();
      Then(w, env, e, p, e, p, f, Gateway(since, job, GwRisk(r, Allow)));
      res := AssessRiskAndFinalize(x, w, env, since, job, r, Allow);
      Chain(w, env, e, p, f, Gateway(since, job, GwRisk(r, Allow)), x.Table(), Finalizing(since, job, res));
      SettledSince(Allow, o, e, f, x.Table(), r, Requested, res);
    }
  }
}
