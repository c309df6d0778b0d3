/** Step verdicts are sound and final, in every interleaving, including callers that go on working
    after their lease was taken over. */
module Verdicts {
  import opened Base
  import opened Rows
  import opened Protocol
  import Ap = Outstanding

  // ---------------------------------------------------------------- what never goes back

  predicate Resolved(p: Approval) {
    p.status.Rejected? || p.status.Expired? || p.status.ApprovalExecuted?
  }

  predicate Settled(st: Step) {
    !st.status.StepPending? && !st.status.StepWaiting?
  }

  predicate RequestLater(q: Request, p: Request) {
    p.call == q.call && (q.status.Executed? || q.status.RequestFailed? || q.status.Denied? ==> p.status == q.status)
  }

  /** PENDING is left once, by one claim; APPROVED only for EXECUTED. */
  predicate ApprovalLater(q: Approval, p: Approval) {
    && p.request == q.request && p.call == q.call && p.expiresAt == q.expiresAt
    && (q.status.Pending? || p.resolvedAt == q.resolvedAt)
    && (q.status.Pending? || p.status == q.status || (q.status.Approved? && p.status.ApprovalExecuted?))
  }

  /** A step's verdict is given once; a waiting step stays tied to its approval. */
  predicate StepLater(q: Step, p: Step) {
    && p.sequence == q.sequence && p.kind == q.kind
    && (Settled(q) ==> p.status == q.status)
    && (q.status.StepWaiting? ==> !p.status.StepPending?)
    && (q.approval.Some? ==> p.approval == q.approval)
  }

  ghost predicate Later(d: Rows, e: Rows) {
    && |d.requests| <= |e.requests| && |d.approvals| <= |e.approvals| && |d.steps| <= |e.steps|
    && (forall i :: 0 <= i < |d.requests| ==> RequestLater(d.requests[i], e.requests[i]))
    && (forall i :: 0 <= i < |d.approvals| ==> ApprovalLater(d.approvals[i], e.approvals[i]))
    && (forall i :: 0 <= i < |d.steps| ==> StepLater(d.steps[i], e.steps[i]))
  }

  // ---------------------------------------------------------------- what a verdict stands on

  /** Approval `a` ended in verdict `v`. */
  predicate Ended(d: Rows, a: nat, v: Verdict) {
    a < |d.approvals| && d.approvals[a].request < |d.requests| &&
    match v
    case VRejected => d.approvals[a].status.Rejected?
    case VExpired => d.approvals[a].status.Expired?
    case VExecuted => d.approvals[a].status.ApprovalExecuted? && d.requests[d.approvals[a].request].status.Executed?
    case VActionFailed =>
      d.approvals[a].status.ApprovalExecuted? && d.requests[d.approvals[a].request].status.RequestFailed?
  }

  function StatusOf(v: Verdict): StepStatus {
    match v
    case VRejected => StepBlocked
    case VExpired => StepFailed
    case VExecuted => StepCompleted
    case VActionFailed => StepFailed
  }

  /** The call ran and succeeded without an approval. */
  ghost predicate RanDirectly(d: Rows, call: Call) {
    exists r :: 0 <= r < |d.requests| && d.requests[r].call == call && d.requests[r].status.Executed?
  }

  ghost predicate Justified(d: Rows, st: Step) {
    match st.approval
    case Some(a) =>
      && st.kind.ToolCall? && a < |d.approvals| && d.approvals[a].call == st.kind.call
      && (st.status.StepWaiting? || exists v :: Ended(d, a, v) && StatusOf(v) == st.status)
    case None =>
      && !st.status.StepWaiting?
      && (st.status.StepCompleted? && st.kind.ToolCall? ==> RanDirectly(d, st.kind.call))
  }

  ghost predicate StepsOk(d: Rows) {
    && (forall k :: 0 <= k < |d.steps| ==> Justified(d, d.steps[k]))
    && (forall a :: 0 <= a < |d.approvals| && d.approvals[a].status.ApprovalExecuted? ==> ExecutedOrFailed(d, a))
  }

  predicate ExecutedOrFailed(d: Rows, a: nat)
    requires a < |d.approvals|
  {
    var r := d.approvals[a].request;
    r < |d.requests| && (d.requests[r].status.Executed? || d.requests[r].status.RequestFailed?)
  }

  // ---------------------------------------------------------------- what callers know

  /** The step that a caller inserted and has not finished with, or NONE. */
  function OwnsStep(pc: Pc): int {
    if pc.Announcing? || pc.Gateway? || pc.Finalizing? || pc.RetryReadingMax? || pc.RetryInserting? || pc.GivingUp?
    then pc.job.step
    else if pc.Closing? then pc.step
    else Ap.NONE
  }

  predicate OwnedStepOk(pc: Pc, st: Step)
    requires OwnsStep(pc) >= 0
  {
    && st.approval.None?
    && (if pc.Closing? then st.status.StepPending? && !st.kind.ToolCall?
        else st.kind == ToolCall(pc.job.call) &&
             (if pc.RetryReadingMax? || pc.RetryInserting? || pc.GivingUp? then st.status.StepFailed?
              else st.status.StepPending?))
  }

  predicate ResultOk(d: Rows, call: Call, res: GatewayResult) {
    match res
    case ResExecuted(r) => r < |d.requests| && d.requests[r].call == call && d.requests[r].status.Executed?
    case ResApproval(a) => a < |d.approvals| && d.approvals[a].call == call
    case _ => true
  }

  ghost predicate PcSteps(d: Rows, pc: Pc) {
    && (OwnsStep(pc) >= 0 ==> OwnsStep(pc) < |d.steps| && OwnedStepOk(pc, d.steps[OwnsStep(pc)]))
    && (0 <= Ap.OwnsRequest(pc) < |d.requests| ==> d.requests[Ap.OwnsRequest(pc)].call == pc.job.call)
    && (pc.Finalizing? ==> ResultOk(d, pc.job.call, pc.result))
    && (pc.ResolveCommit? ==> ResolveOk(d, pc.step, pc.verdict))
  }

  predicate ResolveOk(d: Rows, k: nat, v: Verdict) {
    k < |d.steps| && d.steps[k].kind.ToolCall? && d.steps[k].approval.Some? && Ended(d, d.steps[k].approval.value, v)
  }

  ghost predicate ApartSteps(p: Pc, q: Pc) {
    OwnsStep(p) >= 0 ==> OwnsStep(p) != OwnsStep(q)
  }

  ghost predicate Inv(s: State) {
    && Ap.Inv(s)
    && StepsOk(s.rows)
    && (forall x :: x in s.callers ==> PcSteps(s.rows, s.callers[x]))
    && (forall x, y :: x in s.callers && y in s.callers && x != y ==> ApartSteps(s.callers[x], s.callers[y]))
  }

  // ---------------------------------------------------------------- growing

  lemma LaterTransitive(d: Rows, e: Rows, f: Rows)
    requires Later(d, e) && Later(e, f)
    ensures Later(d, f)
  {
  }

  lemma EndedStays(d: Rows, e: Rows, a: nat, v: Verdict)
    requires Later(d, e) && Ended(d, a, v)
    ensures Ended(e, a, v)
  {
  }

  lemma JustifiedStays(d: Rows, e: Rows, st: Step)
    requires Later(d, e) && Justified(d, st)
    ensures Justified(e, st)
  {
    match st.approval
    case Some(a) =>
      if !st.status.StepWaiting? {
        var v :| Ended(d, a, v) && StatusOf(v) == st.status;
        EndedStays(d, e, a, v);
      }
    case None =>
      if st.status.StepCompleted? && st.kind.ToolCall? {
        var r :| 0 <= r < |d.requests| && d.requests[r].call == st.kind.call && d.requests[r].status.Executed?;
        assert RequestLater(d.requests[r], e.requests[r]);
      }
  }

  /** The step that `p` is about to write, or NONE. */
  function TargetStep(p: Pc): int {
    if p.ResolveCommit? then p.step else OwnsStep(p)
  }

  ghost predicate OnlyStep(d: Rows, e: Rows, k: int) {
    |d.steps| <= |e.steps| && forall i :: 0 <= i < |d.steps| && i != k ==> e.steps[i] == d.steps[i]
  }

  /** What other callers know survives a later state in which only step `k` differs. */
  lemma OtherKeeps(d: Rows, p: Pc, q: Pc, e: Rows)
    requires Later(d, e) && OnlyStep(d, e, TargetStep(p)) && ApartSteps(q, p)
    requires PcSteps(d, p) && PcSteps(d, q) && Ap.PcOk(d, q)
    ensures PcSteps(e, q)
  {
    match q
    case ResolveCommit(_, _, k, v) =>
      EndedStays(d, e, d.steps[k].approval.value, v);
      assert StepLater(d.steps[k], e.steps[k]);
    case _ =>
  }

  /** One caller's transition. */
  ghost predicate LocalOk(d: Rows, p: Pc, out: Out) {
    && Later(d, out.rows) && OnlyStep(d, out.rows, TargetStep(p))
    && StepsOk(out.rows) && PcSteps(out.rows, out.pc)
    && (OwnsStep(out.pc) == Ap.NONE || OwnsStep(out.pc) == OwnsStep(p) || OwnsStep(out.pc) == |d.steps|)
  }

  /** Steps untouched: they stay justified by what came later. */
  lemma SameSteps(d: Rows, e: Rows)
    requires StepsOk(d) && Later(d, e) && e.steps == d.steps
    requires forall a :: 0 <= a < |e.approvals| && e.approvals[a].status.ApprovalExecuted? ==> ExecutedOrFailed(e, a)
    ensures StepsOk(e)
  {
    forall k | 0 <= k < |e.steps| ensures Justified(e, e.steps[k]) { JustifiedStays(d, e, d.steps[k]); }
  }

  /** Requests and approvals untouched: one step written or appended, and it is justified. */
  lemma OneStep(d: Rows, e: Rows, k: nat)
    requires StepsOk(d) && e.requests == d.requests && e.approvals == d.approvals
    requires k < |e.steps| && |d.steps| <= |e.steps| <= |d.steps| + 1 && k <= |d.steps| && OnlyStep(d, e, k)
    requires |e.steps| == |d.steps| + 1 ==> k == |d.steps|
    requires k < |d.steps| ==> StepLater(d.steps[k], e.steps[k])
    requires Justified(d, e.steps[k])
    ensures Later(d, e) && StepsOk(e)
  {
    forall i | 0 <= i < |e.steps| ensures Justified(e, e.steps[i]) {
      if i != k { assert Justified(d, d.steps[i]); }
    }
  }

  lemma InsertLocal(d: Rows, p: Pc, out: Out, q: nat, kind: StepKind)
    requires StepsOk(d) && out.rows == InsertStep(d, q, kind)
    requires OwnsStep(out.pc) == |d.steps| && OwnedStepOk(out.pc, Step(q, kind, StepPending, None))
    requires !out.pc.Finalizing? && Ap.OwnsRequest(out.pc) == Ap.NONE
    ensures LocalOk(d, p, out)
  {
    OneStep(d, out.rows, |d.steps|);
  }

  /** A commit on the caller's own step, or the resolution of a waiting one. */
  lemma WriteLocal(d: Rows, p: Pc, out: Out, k: nat)
    requires StepsOk(d) && k == TargetStep(p) && k < |d.steps|
    requires out.rows.requests == d.requests && out.rows.approvals == d.approvals
    requires |out.rows.steps| == |d.steps| && OnlyStep(d, out.rows, k)
    requires StepLater(d.steps[k], out.rows.steps[k]) && Justified(d, out.rows.steps[k])
    requires PcSteps(out.rows, out.pc) && (OwnsStep(out.pc) == Ap.NONE || OwnsStep(out.pc) == OwnsStep(p))
    ensures LocalOk(d, p, out)
  {
    OneStep(d, out.rows, k);
  }

  lemma ResolveLocal(d: Rows, p: Pc)
    requires p.ResolveCommit? && StepsOk(d) && PcSteps(d, p)
    ensures LocalOk(d, p, Out(ResolveRows(d, p.step, p.verdict), Resuming(p.role, p.since, p.verdict.VExecuted?)))
  {
    var k := p.step;
    var a := d.steps[k].approval.value;
    assert Justified(d, d.steps[k]);
    var e := ResolveRows(d, k, p.verdict);
    assert Ended(d, a, p.verdict) && e.steps[k].status == StatusOf(p.verdict);
    WriteLocal(d, p, Out(e, Resuming(p.role, p.since, p.verdict.VExecuted?)), k);
  }

  lemma FinalizeLocal(w: World, d: Rows, p: Pc)
    requires p.Finalizing? && StepsOk(d) && PcSteps(d, p)
    ensures LocalOk(d, p, GoFinalizing(w, d, p.since, p.job, p.result))
  {
    var out := GoFinalizing(w, d, p.since, p.job, p.result);
    if p.result.ResExecuted? { assert RanDirectly(d, p.job.call); }
    WriteLocal(d, p, out, p.job.step);
  }

  /** Everything else a runtime call does leaves the tables of this module alone. */
  lemma QuietLocal(d: Rows, p: Pc, out: Out)
    requires StepsOk(d)
    requires out.rows.requests == d.requests && out.rows.approvals == d.approvals && out.rows.steps == d.steps
    requires PcSteps(d, out.pc) && (OwnsStep(out.pc) == Ap.NONE || OwnsStep(out.pc) == OwnsStep(p))
    ensures LocalOk(d, p, out)
  {
    SameSteps(d, out.rows);
  }

  lemma VerdictFits(d: Rows, k: nat)
    requires StepsOk(d) && Ap.RowsOk(d) && k < |d.steps| && VerdictOf(d, k).Some?
    ensures ResolveOk(d, k, VerdictOf(d, k).value)
  {
    assert Justified(d, d.steps[k]);
    var a := d.steps[k].approval.value;
    assert d.approvals[a].request < |d.requests|;
  }

  predicate WritesStep(p: Pc) {
    p.ResolveCommit? || p.Finalizing? || p.Inserting? || p.RetryInserting? || p.GivingUp? || p.Closing?
  }

  lemma QuietShape(w: World, d: Rows, p: Pc, o: Oracle)
    requires IsRuntime(p) && !WritesStep(p) && !p.Resolving? && PcSteps(d, p)
    ensures var out := GoRuntime(w, d, p, o);
      && out.rows.requests == d.requests && out.rows.approvals == d.approvals && out.rows.steps == d.steps
      && PcSteps(d, out.pc) && (OwnsStep(out.pc) == Ap.NONE || OwnsStep(out.pc) == OwnsStep(p))
  {
  }

  lemma InsertingLocal(d: Rows, p: Pc)
    requires p.Inserting? && StepsOk(d)
    ensures LocalOk(d, p, GoInserting(d, p.since, p.plan, p.next))
  {
    hide LocalOk, StepsOk;
    var out := GoInserting(d, p.since, p.plan, p.next);
    if SequenceFree(d.steps, p.next) {
      InsertLocal(d, p, out, p.next, PlanKind(p.plan));
    } else {
      QuietLocal(d, p, out);
    }
  }

  lemma RetryLocal(d: Rows, p: Pc)
    requires p.RetryInserting? && StepsOk(d) && PcSteps(d, p)
    ensures LocalOk(d, p, GoRetryInserting(d, p.since, p.job, p.next))
  {
    hide LocalOk, StepsOk;
    var out := GoRetryInserting(d, p.since, p.job, p.next);
    if SequenceFree(d.steps, p.next) {
      InsertLocal(d, p, out, p.next, ToolCall(p.job.call));
    } else {
      QuietLocal(d, p, out);
    }
  }

  lemma GivingUpLocal(d: Rows, p: Pc)
    requires p.GivingUp? && StepsOk(d) && PcSteps(d, p)
    ensures LocalOk(d, p, Out(FinalizeExecution(d, p.job.step, StepFailed, ExecutionStatus.Failed), Releasing))
  {
    hide LocalOk, StepsOk;
    WriteLocal(d, p, Out(FinalizeExecution(d, p.job.step, StepFailed, ExecutionStatus.Failed), Releasing), p.job.step);
  }

  lemma ClosingLocal(d: Rows, p: Pc)
    requires p.Closing? && StepsOk(d) && PcSteps(d, p)
    ensures LocalOk(d, p, GoClosing(d, p.step, p.plan))
  {
    hide LocalOk, StepsOk;
    WriteLocal(d, p, GoClosing(d, p.step, p.plan), p.step);
  }

  lemma ResolvingLocal(d: Rows, p: Pc)
    requires p.Resolving? && Ap.RowsOk(d) && StepsOk(d)
    ensures LocalOk(d, p, GoResolving(d, p.role, p.since))
  {
    hide LocalOk, StepsOk, Ap.RowsOk;
    var k := LastWaiting(d.steps);
    if k.Some? && VerdictOf(d, k.value).Some? { VerdictFits(d, k.value); }
    hide VerdictOf;
    QuietLocal(d, p, GoResolving(d, p.role, p.since));
  }

  lemma RuntimeLocal(w: World, d: Rows, p: Pc, o: Oracle)
    requires IsRuntime(p) && Ap.RowsOk(d) && StepsOk(d) && PcSteps(d, p)
    ensures LocalOk(d, p, GoRuntime(w, d, p, o))
  {
    hide LocalOk, StepsOk, Ap.RowsOk, GoInserting, GoRetryInserting, GoResolving, GoClosing, GoFinalizing,
      ResolveRows, FinalizeExecution;
    if p.ResolveCommit? {
      ResolveLocal(d, p);
    } else if p.Finalizing? {
      FinalizeLocal(w, d, p);
    } else if p.Inserting? {
      InsertingLocal(d, p);
    } else if p.RetryInserting? {
      RetryLocal(d, p);
    } else if p.GivingUp? {
      GivingUpLocal(d, p);
    } else if p.Closing? {
      ClosingLocal(d, p);
    } else if p.Resolving? {
      ResolvingLocal(d, p);
    } else {
      QuietShape(w, d, p, o);
      QuietLocal(d, p, GoRuntime(w, d, p, o));
    }
  }

  /** The gateway's own request, still REQUESTED, may become anything. */
  lemma OwnRequestLater(d: Rows, e: Rows, r: nat, q: Request)
    requires StepsOk(d) && Ap.RowsOk(d) && r < |d.requests| && d.requests[r].status.Requested? &&
      q.call == d.requests[r].call
    requires e.requests == d.requests[r := q] && e.approvals == d.approvals && e.steps == d.steps
    ensures Later(d, e) && StepsOk(e)
  {
    assert RequestLater(d.requests[r], q);
    hide Ap.RowsOk;
    assert Later(d, e);
    SameSteps(d, e);
  }

  lemma NewRequestLater(d: Rows, e: Rows, q: Request)
    requires StepsOk(d)
    requires e.requests == d.requests + [q] && e.approvals == d.approvals && e.steps == d.steps
    ensures Later(d, e) && StepsOk(e)
  {
    assert Later(d, e);
    SameSteps(d, e);
  }

  lemma AdmitLater(d: Rows, e: Rows, r: nat, q: Request, p: Approval)
    requires StepsOk(d) && Ap.RowsOk(d) && r < |d.requests| && d.requests[r].status.Requested? &&
      q.call == d.requests[r].call
    requires e.requests == d.requests[r := q] && e.approvals == d.approvals + [p] && e.steps == d.steps &&
      p.status.Pending?
    ensures Later(d, e) && StepsOk(e)
  {
    assert RequestLater(d.requests[r], q);
    assert Later(d, e);
    hide Ap.RowsOk;
    SameSteps(d, e);
  }

  /** A claim, or the outcome of an approval. */
  lemma ApprovalRowLater(d: Rows, e: Rows, a: nat, p: Approval)
    requires StepsOk(d) && a < |d.approvals| && ApprovalLater(d.approvals[a], p)
    requires e.approvals == d.approvals[a := p] && e.steps == d.steps
    requires var r := p.request;
      && r < |d.requests| && |e.requests| == |d.requests| && e.requests == d.requests[r := e.requests[r]]
      && RequestLater(d.requests[r], e.requests[r])
      && (p.status.ApprovalExecuted? && !d.approvals[a].status.ApprovalExecuted? ==>
            e.requests[r].status.Executed? || e.requests[r].status.RequestFailed?)
    ensures Later(d, e) && StepsOk(e)
  {
    assert Later(d, e);
    forall b | 0 <= b < |e.approvals| && e.approvals[b].status.ApprovalExecuted? ensures ExecutedOrFailed(e, b) {
      if d.approvals[b].status.ApprovalExecuted? {
        assert ExecutedOrFailed(d, b);
        assert RequestLater(d.requests[d.approvals[b].request], e.requests[d.approvals[b].request]);
      }
    }
    SameSteps(d, e);
  }

  lemma GatewayTables(w: World, d: Rows, p: Pc, o: Oracle)
    requires p.Gateway? && Ap.RowsOk(d) && Ap.PcOk(d, p) && StepsOk(d) && PcSteps(d, p)
    ensures var e := GoGateway(w, d, p.since, p.job, p.at, o).rows;
      Later(d, e) && StepsOk(e) && e.steps == d.steps
  {
    hide Later, StepsOk, Ap.RowsOk, PcSteps;
    var e := GoGateway(w, d, p.since, p.job, p.at, o).rows;
    if p.at.GwCheck? {
      NewRequestLater(d, e, e.requests[|d.requests|]);
    } else if p.at.GwApprove? && d.status.Running? && o.now <= w.clock {
      AdmitLater(d, e, p.at.request, e.requests[p.at.request], e.approvals[|d.approvals|]);
    } else if p.at.GwPolicy? || p.at.GwRisk? || p.at.GwBlock? || p.at.GwRecord? {
      OwnRequestLater(d, e, p.at.request, e.requests[p.at.request]);
    } else {
      NothingLater(d, e);
    }
  }

  lemma NothingLater(d: Rows, e: Rows)
    requires StepsOk(d) && e.requests == d.requests && e.approvals == d.approvals && e.steps == d.steps
    ensures Later(d, e) && StepsOk(e)
  {
    SameSteps(d, e);
  }

  lemma GatewayPc(w: World, d: Rows, p: Pc, o: Oracle)
    requires p.Gateway? && Ap.PcOk(d, p) && PcSteps(d, p)
    ensures var out := GoGateway(w, d, p.since, p.job, p.at, o);
      PcSteps(out.rows, out.pc) && OwnsStep(out.pc) == OwnsStep(p)
  {
  }

  lemma GatewayLocal(w: World, d: Rows, p: Pc, o: Oracle)
    requires p.Gateway? && Ap.RowsOk(d) && Ap.PcOk(d, p) && StepsOk(d) && PcSteps(d, p)
    ensures LocalOk(d, p, GoGateway(w, d, p.since, p.job, p.at, o))
  {
    hide Later, StepsOk, PcSteps, GoGateway;
    GatewayTables(w, d, p, o);
    GatewayPc(w, d, p, o);
  }

  lemma ApprovalTables(w: World, d: Rows, p: Pc, o: Oracle)
    requires IsApproval(p) && Ap.PcOk(d, p) && StepsOk(d)
    ensures var out := GoApproval(w, d, p, o);
      Later(d, out.rows) && StepsOk(out.rows) && out.rows.steps == d.steps && (IsApproval(out.pc) || out.pc.Gone?)
  {
    hide Later, StepsOk;
    var e := GoApproval(w, d, p, o).rows;
    if p.approval < |d.approvals| && d.approvals[p.approval].request < |d.requests| {
      ApprovalRowLater(d, e, p.approval, e.approvals[p.approval]);
    } else {
      NothingLater(d, e);
    }
  }

  lemma ApprovalLocal(w: World, d: Rows, p: Pc, o: Oracle)
    requires IsApproval(p) && Ap.PcOk(d, p) && StepsOk(d)
    ensures LocalOk(d, p, GoApproval(w, d, p, o))
  {
    hide Later, StepsOk, GoApproval;
    ApprovalTables(w, d, p, o);
  }

  lemma OtherLocal(d: Rows, p: Pc)
    requires IsOther(p) && StepsOk(d)
    ensures LocalOk(d, p, GoOther(d, p))
  {
    hide LocalOk;
    QuietLocal(d, p, GoOther(d, p));
  }

  lemma Local(w: World, d: Rows, p: Pc, o: Oracle)
    requires Ap.RowsOk(d) && Ap.PcOk(d, p) && StepsOk(d) && PcSteps(d, p)
    ensures LocalOk(d, p, GoLocal(w, d, p, o))
  {
    hide StepsOk, LocalOk, Ap.RowsOk, GoGateway, GoApproval, GoRuntime, GoOther;
    if p.Gateway? {
      GatewayLocal(w, d, p, o);
    } else if IsApproval(p) {
      ApprovalLocal(w, d, p, o);
    } else if IsOther(p) {
      OtherLocal(d, p);
    } else {
      RuntimeLocal(w, d, p, o);
    }
  }

  lemma MoveKeeps(s: State, x: nat, p: Pc, out: Out, t: State)
    requires Inv(s) && p == (if x in s.callers then s.callers[x] else Gone) && LocalOk(s.rows, p, out)
    requires t.rows == out.rows && t.callers == s.callers[x := out.pc] && Ap.Inv(t)
    ensures Inv(t)
  {
    hide StepsOk;
    forall y | y in t.callers ensures PcSteps(t.rows, t.callers[y]) {
      if y != x {
        assert Ap.PcOk(s.rows, s.callers[y]);
        OtherKeeps(s.rows, p, s.callers[y], t.rows);
      }
    }
    forall y, z | y in t.callers && z in t.callers && y != z ensures ApartSteps(t.callers[y], t.callers[z]) {
      if y in s.callers { assert PcSteps(s.rows, s.callers[y]); }
      if z in s.callers { assert PcSteps(s.rows, s.callers[z]); }
      if y in s.callers && z in s.callers { assert ApartSteps(s.callers[y], s.callers[z]); }
    }
  }

  lemma Keeps(s: State, x: nat, c: Choice)
    requires Inv(s)
    ensures Inv(Apply(s, x, c)) && Later(s.rows, Apply(s, x, c).rows)
  {
    hide GoLocal, StepsOk, Ap.Inv, Later, PcSteps;
    var w, t := World(s.cfg, s.clock, x), Apply(s, x, c);
    var p := if x in s.callers then s.callers[x] else Gone;
    Ap.Keeps(s, x, c);
    if x in s.callers && c.Go? {
      CallerFacts(s, x);
      Local(w, s.rows, p, c.o);
      MoveKeeps(s, x, p, GoLocal(w, s.rows, p, c.o), t);
    } else if t.callers != s.callers {
      PlainPc(s.rows, t.callers[x]);
      QuietLocal(s.rows, p, Out(t.rows, t.callers[x]));
      MoveKeeps(s, x, p, Out(t.rows, t.callers[x]), t);
    } else {
      NothingLater(s.rows, t.rows);
      forall y | y in t.callers ensures PcSteps(t.rows, t.callers[y]) { SamePc(s.rows, t.rows, s.callers[y]); }
    }
  }

  lemma CallerFacts(s: State, x: nat)
    requires Inv(s) && x in s.callers
    ensures Ap.RowsOk(s.rows) && Ap.PcOk(s.rows, s.callers[x]) && PcSteps(s.rows, s.callers[x])
  {
  }

  lemma PlainPc(d: Rows, pc: Pc)
    requires EntryPoint(pc) || pc.Releasing? || pc.Gone?
    ensures PcSteps(d, pc)
  {
  }

  lemma SamePc(d: Rows, e: Rows, pc: Pc)
    requires PcSteps(d, pc) && e.requests == d.requests && e.approvals == d.approvals && e.steps == d.steps
    ensures PcSteps(e, pc)
  {
  }

  // ---------------------------------------------------------------- every run

  lemma {:induction false} Holds(cfg: Config, schedule: seq<Turn>)
    ensures Inv(Run(Init(cfg), schedule))
  {
    hide Inv, Apply;
    if |schedule| > 0 {
      var t := schedule[|schedule| - 1];
      Holds(cfg, schedule[..|schedule| - 1]);
      Keeps(Run(Init(cfg), schedule[..|schedule| - 1]), t.who, t.choice);
    } else {
      InitInv(cfg);
    }
  }

  lemma InitInv(cfg: Config)
    ensures Inv(Init(cfg))
  {
  }

  lemma {:induction false} RunLater(s: State, more: seq<Turn>)
    requires Inv(s)
    ensures Inv(Run(s, more)) && Later(s.rows, Run(s, more).rows)
  {
    if |more| > 0 {
      var t, before := more[|more| - 1], Run(s, more[..|more| - 1]);
      RunLater(s, more[..|more| - 1]);
      Keeps(before, t.who, t.choice);
      LaterTransitive(s.rows, before.rows, Run(s, more).rows);
    }
  }

  /** A TOOL_CALL step is COMPLETED only if its own call ran and succeeded: directly, or through its
      approval, which is then EXECUTED with an EXECUTED request.  A rejected or expired approval
      leaves its step waiting, BLOCKED or FAILED. */
  lemma CompletedMeansExecuted(cfg: Config, schedule: seq<Turn>, k: nat)
    requires k < |Run(Init(cfg), schedule).rows.steps|
    ensures var d := Run(Init(cfg), schedule).rows;
      var st := d.steps[k];
      && (st.status.StepCompleted? && st.kind.ToolCall? ==>
            if st.approval.None? then RanDirectly(d, st.kind.call)
            else Ended(d, st.approval.value, VExecuted) && d.approvals[st.approval.value].call == st.kind.call)
      && (st.approval.Some? && st.approval.value < |d.approvals| && d.approvals[st.approval.value].status.Rejected? ==>
            st.status.StepWaiting? || st.status.StepBlocked?)
      && (st.approval.Some? && st.approval.value < |d.approvals| && d.approvals[st.approval.value].status.Expired? ==>
            st.status.StepWaiting? || st.status.StepFailed?)
  {
    Holds(cfg, schedule);
    assert Justified(Run(Init(cfg), schedule).rows, Run(Init(cfg), schedule).rows.steps[k]);
  }

  /** Whatever happens later, the first claim of an approval and the first verdict on a step stand. */
  lemma VerdictsAreFinal(cfg: Config, schedule: seq<Turn>, more: seq<Turn>)
    ensures var d, e := Run(Init(cfg), schedule).rows, Run(Run(Init(cfg), schedule), more).rows;
      && |d.approvals| <= |e.approvals| && |d.steps| <= |e.steps|
      && (forall a :: 0 <= a < |d.approvals| && !d.approvals[a].status.Pending? ==>
            && (e.approvals[a].status == d.approvals[a].status ||
                (d.approvals[a].status.Approved? && e.approvals[a].status.ApprovalExecuted?))
            && e.approvals[a].resolvedAt == d.approvals[a].resolvedAt)
      && (forall k :: 0 <= k < |d.steps| && Settled(d.steps[k]) ==> e.steps[k].status == d.steps[k].status)
  {
    Holds(cfg, schedule);
    RunLater(Run(Init(cfg), schedule), more);
    hide Run;
    assert Later(Run(Init(cfg), schedule).rows, Run(Run(Init(cfg), schedule), more).rows);
  }
}
