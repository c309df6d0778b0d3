/** The execution's rows as the services hold them: fields assigned in place, one commit a method.
    Each method states its whole effect as the commit that the state machine makes. */
module Executions {
  import opened Base
  import opened Rows
  import opened Chunks

  class Execution {
    var status: ExecutionStatus
    var stepping: bool
    var claimId: nat
    var claimedAt: int
    var requests: seq<Request>
    var approvals: seq<Approval>
    var steps: seq<Step>
    var events: seq<Event>
    ghost var trace: seq<TraceEvent>

    /** The rows behind the fields.  A lease is the three `stepping` columns together. */
    ghost function Table(): Rows
      reads this
    {
      Rows(status, HeldLease(), requests, approvals, steps, events, trace)
    }

    ghost function HeldLease(): Option<Lease>
      reads this
    {
      if stepping then Some(Lease(claimId, claimedAt)) else None
    }

    /** `start_execution`'s first commit. */
    constructor ()
      ensures Table() == Rows(Created, None, [], [], [], [], [])
    {
      status, stepping, claimId, claimedAt := Created, false, 0, 0;
      requests, approvals, steps, events, trace := [], [], [], [], [];
    }

    method Start()
      modifies this
      ensures Table() == StartExecution(old(Table()))
    {
      if status.Created? { status := Running; }
      events := events + [ExecutionStarted];
    }

    /** A commit of audit events only. */
    method AddEvents(more: seq<Event>)
      modifies this
      ensures Table() == Log(old(Table()), more)
    {
      events := events + more;
    }

    method ClaimStepping(me: nat, now: int, ttl: int) returns (claimed: bool)
      modifies this
      ensures claimed == LeaseClaimable(old(Table()), now, ttl)
      ensures Table() == ClaimLease(old(Table()), me, now, ttl)
    {
      claimed := !stepping || claimedAt < now - ttl;
      if claimed { stepping, claimId, claimedAt := true, me, now; }
    }

    method ReleaseStepping(me: nat)
      modifies this
      ensures Table() == ReleaseLease(old(Table()), me)
    {
      if stepping && claimId == me { stepping, claimId, claimedAt := false, 0, 0; }
    }

    method CancelStatus() returns (transitioned: bool)
      modifies this
      ensures transitioned == Cancellable(old(Table()))
      ensures Table() == Cancel(old(Table()))
    {
      transitioned := status.Running? || status.WaitingApproval?;
      if transitioned { status := Cancelled; }
    }

    /** `_claim_step` after its read of the maximum; None is the lost race. */
    method ClaimStep(next: nat, kind: StepKind) returns (k: Option<nat>)
      modifies this
      ensures k == if SequenceFree(old(steps), next) then Some(|old(steps)|) else None
      ensures Table() == if k.Some? then InsertStep(old(Table()), next, kind) else old(Table())
    {
      if exists i :: 0 <= i < |steps| && steps[i].sequence == next { return None; }
      steps := steps + [Step(next, kind, StepPending, None)];
      return Some(|steps| - 1);
    }

    method PersistStepOnly(k: nat, st: StepStatus)
      requires k < |steps|
      modifies this
      ensures Table() == SetStep(old(Table()), k, st, None)
    {
      steps := steps[k := steps[k].(status := st, approval := None)];
    }

    method Finalize(k: nat, st: StepStatus, approval: Option<nat>, event: Event)
      requires k < |steps|
      modifies this
      ensures Table() == FinalizeStep(old(Table()), k, st, approval, event)
    {
      steps := steps[k := steps[k].(status := st, approval := approval)];
      events := events + [event];
    }

    /** `_finalize` with a terminal status: what is logged is what happened. */
    method FinalizeTerminal(k: nat, st: StepStatus, terminal: ExecutionStatus) returns (transitioned: bool)
      requires k < |steps| && (terminal.Completed? || terminal.Failed? || terminal.Blocked?)
      modifies this
      ensures transitioned == old(status).Running?
      ensures Table() == FinalizeExecution(old(Table()), k, st, terminal)
    {
      steps := steps[k := steps[k].(status := st)];
      var actual := TerminalEvent(terminal);
      transitioned := status.Running?;
      if transitioned { status := terminal; } else { actual := StatusAlreadyTerminal; }
      events := events + [actual];
    }

    method AddRequest(call: Call, permission: Permission, st: RequestStatus, more: seq<Event>) returns (r: nat)
      modifies this
      ensures r == |old(requests)|
      ensures Table() == Log(NewRequest(old(Table()), call, permission, st), more)
    {
      r := |requests|;
      requests := requests + [Request(call, permission, st, None, None)];
      trace := trace + [Permitted(r, call, permission)];
      events := events + more;
    }

    method SetRequest(r: nat, st: RequestStatus, more: seq<Event>)
      requires r < |requests|
      modifies this
      ensures Table() == Log(SetRequestStatus(old(Table()), r, st), more)
    {
      requests := requests[r := requests[r].(status := st)];
      events := events + more;
    }

    /** `_policy_outcome_rows`; a BLOCK also denies the request. */
    method CommitPolicy(r: nat, action: PolicyAction, matched: bool)
      requires r < |requests|
      modifies this
      ensures var e := Log(RecordPolicy(old(Table()), r, action), PolicyChunk(matched, action));
        Table() == if action.Block? then SetRequestStatus(e, r, Denied) else e
    {
      requests := requests[r := requests[r].(policy := Some(action))];
      trace := trace + [PolicyDecided(r, action)];
      events := events + PolicyChunk(matched, action);
      if action.Block? { requests := requests[r := requests[r].(status := Denied)]; }
    }

    /** `build_risk_rows`, with the synthetic PolicyDecision of a direct ALLOW. */
    method CommitRisk(r: nat, policy: PolicyAction, action: PolicyAction, signals: nat)
      requires r < |requests|
      modifies this
      ensures var c := if old(requests)[r].permission.PermitAllow? then RecordPolicy(old(Table()), r, policy)
        else old(Table());
        Table() == Log(RecordRisk(c, r, action), RiskChunk(signals))
    {
      if requests[r].permission.PermitAllow? {
        requests := requests[r := requests[r].(policy := Some(policy))];
        trace := trace + [PolicyDecided(r, policy)];
      }
      requests := requests[r := requests[r].(risk := Some(action))];
      trace := trace + [RiskDecided(r, action)];
      events := events + RiskChunk(signals);
    }

    /** `build_rows` of `_create_approval_and_commit`; false is the lost compare-and-set. */
    method CommitApproval(r: nat, escalated: bool, now: int) returns (admitted: bool)
      requires r < |requests|
      modifies this
      ensures admitted == old(status).Running?
      ensures Table() == if admitted then Log(AdmitApproval(old(Table()), r, now), ApprovalChunk(escalated))
        else old(Table())
    {
      if !status.Running? { return false; }
      status := WaitingApproval;
      requests := requests[r := requests[r].(status := RequiresApproval)];
      approvals := approvals + [Approval(r, requests[r].call, Pending, now + APPROVAL_EXPIRY, None)];
      events := events + ApprovalChunk(escalated);
      return true;
    }

    /** The tool body runs: an effect outside these rows. */
    method Invoke(r: nat, call: Call)
      modifies this
      ensures Table() == Trace(old(Table()), Invoked(r, call))
    {
      trace := trace + [Invoked(r, call)];
    }

    method ClaimResolution(a: nat, approve: bool, now: int) returns (claimed: bool)
      requires a < |approvals|
      modifies this
      ensures claimed == ApprovalClaimable(old(Table()), a, now)
      ensures Table() == ClaimApproval(old(Table()), a, approve, now)
    {
      var p := approvals[a];
      claimed := p.status.Pending? && p.expiresAt > now;
      if claimed {
        approvals := approvals[a := p.(status := if approve then Approved else Rejected, resolvedAt := Some(now))];
        if approve { trace := trace + [Granted(a, p.request, p.call)]; }
      }
    }

    method ClaimExpired(a: nat, now: int) returns (expired: bool)
      requires a < |approvals|
      modifies this
      ensures expired == old(approvals)[a].status.Pending?
      ensures Table() == ClaimExpiry(old(Table()), a, now)
    {
      expired := approvals[a].status.Pending?;
      if expired { approvals := approvals[a := approvals[a].(status := Expired, resolvedAt := Some(now))]; }
    }

    method RejectionRows(a: nat)
      requires a < |approvals| && approvals[a].request < |requests|
      modifies this
      ensures Table() == CommitRejection(old(Table()), a)
    {
      var r := approvals[a].request;
      requests := requests[r := requests[r].(status := Denied)];
      status := Running;
      events := events + [ApprovalRejected];
    }

    method OutcomeRows(a: nat, success: bool)
      requires a < |approvals| && approvals[a].request < |requests|
      modifies this
      ensures Table() == CommitOutcome(old(Table()), a, success)
    {
      var r := approvals[a].request;
      approvals := approvals[a := approvals[a].(status := ApprovalExecuted)];
      requests := requests[r := requests[r].(status := if success then Executed else RequestFailed)];
      status := Running;
      events := events + [if success then ActionExecuted else ActionFailed];
    }

    method ExpiryRows(a: nat)
      requires a < |approvals| && approvals[a].request < |requests|
      modifies this
      ensures Table() == CommitExpiry(old(Table()), a, old(status).WaitingApproval?)
    {
      var r := approvals[a].request;
      events := events + [ApprovalExpired];
      if requests[r].status.RequiresApproval? {
        requests := requests[r := requests[r].(status := Denied)];
      }
      if status.WaitingApproval? { status := Running; }
    }
  }
}
