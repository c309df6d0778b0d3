/** `AgentRuntime` as it is written: step, resume, submit, reconcile and cancel.  Each is a run of the
    machine, and what it answers and leaves behind is a function of what it found. */
module AgentRuntime {
  import opened Base
  import opened Rows
  import opened Protocol
  import opened Alone
  import opened Executions
  import opened ToolGateway

  /** `RuntimeResult.status`. */
  datatype RuntimeStatus = Noop | Conflict | StepExecuted | Waiting | CallBlocked | CallFailed | CallCompleted
    | CallCancelled

  // ---------------------------------------------------------------- what calls come to

  /** What a step shows of itself: its tool (None for a FINAL step) and its status. */
  datatype Mark = Mark(tool: Option<string>, status: StepStatus)

  function MarkOf(s: Step): Mark {
    Mark(if s.kind.ToolCall? then Some(s.kind.call.tool) else None, s.status)
  }

  function Marks(steps: seq<Step>): seq<Mark> {
    seq(|steps|, i requires 0 <= i < |steps| => MarkOf(steps[i]))
  }

  /** The steps and the status after a call, and its answer. */
  datatype After = After(marks: seq<Mark>, status: ExecutionStatus, answer: RuntimeStatus)

  /** A compare-and-set from RUNNING. */
  function Ended(st: ExecutionStatus, terminal: ExecutionStatus): ExecutionStatus {
    if st.Running? then terminal else st
  }

  function StepStatusFor(r: Reply): StepStatus {
    match r
    case RepliesExecuted => StepCompleted
    case RepliesApproval => StepWaiting
    case RepliesBlocked => StepBlocked
    case RepliesFailed => StepFailed
  }

  function AnswerFor(r: Reply): RuntimeStatus {
    match r
    case RepliesExecuted => StepExecuted
    case RepliesApproval => Waiting
    case RepliesBlocked => CallBlocked
    case RepliesFailed => CallFailed
  }

  function StatusFor(r: Reply, st: ExecutionStatus): ExecutionStatus {
    match r
    case RepliesExecuted => st
    case RepliesApproval => WaitingApproval
    case RepliesBlocked => Ended(st, ExecutionStatus.Blocked)
    case RepliesFailed => Ended(st, ExecutionStatus.Failed)
  }

  /** The claimed step `k` gets the verdict of the gateway's reply. */
  function AfterReply(marks: seq<Mark>, k: nat, tool: string, r: Reply, st: ExecutionStatus): After
    requires k < |marks|
  {
    After(marks[k := Mark(Some(tool), StepStatusFor(r))], StatusFor(r, st), AnswerFor(r))
  }

  /** A read-only tool that fails gets one more step, and the second reply. */
  function AfterCall(marks: seq<Mark>, k: nat, tool: string, retries: bool, first: Reply, retry: Reply,
      st: ExecutionStatus): After
    requires k < |marks|
  {
    if first.RepliesFailed? && retries then
      AfterReply(marks[k := Mark(Some(tool), StepFailed)] + [Mark(Some(tool), StepPending)], |marks|, tool, retry, st)
    else AfterReply(marks, k, tool, first, st)
  }

  /** `_advance`: one step for the decision. */
  function AfterPlan(cfg: Config, marks: seq<Mark>, plan: Plan, first: Reply, retry: Reply,
      st: ExecutionStatus): After
  {
    match plan
    case DoCall(call) =>
      AfterCall(marks + [Mark(Some(call.tool), StepPending)], |marks|, call.tool, call.tool in cfg.readOnly, first,
        retry, st)
    case DoComplete => After(marks + [Mark(None, StepCompleted)], Ended(st, Completed), CallCompleted)
    case DoFail => After(marks + [Mark(None, StepFailed)], Ended(st, ExecutionStatus.Failed), CallFailed)
    case DoMaxSteps => After(marks + [Mark(None, StepFailed)], Ended(st, ExecutionStatus.Failed), CallFailed)
  }

  function AfterAdvance(w: World, env: Env, d: Rows, role: Role): After {
    AfterPlan(w.cfg, Marks(d.steps), PlanOf(w, role, |d.steps|, env.first),
              ReplyTo(env.first, d.status), ReplyTo(env.retry, d.status), d.status)
  }

  function AnswerOf(v: Verdict): RuntimeStatus {
    match v
    case VRejected => CallBlocked
    case VExpired => CallFailed
    case VExecuted => CallCompleted
    case VActionFailed => CallFailed
  }

  /** The waiting step gets its approval's verdict, and a resume goes on after an executed one. */
  function AfterReconcile(w: World, env: Env, d: Rows, role: Role): After {
    var k := LastWaiting(d.steps);
    var v := if k.Some? then VerdictOf(d, k.value) else None;
    if v.None? then After(Marks(d.steps), d.status, Noop)
    else
      var e := ResolveRows(d, k.value, v.value);
      if v.value.VExecuted? && role.Resumer? then AfterAdvance(w, env, e, role)
      else After(Marks(e.steps), e.status, AnswerOf(v.value))
  }

  function AfterSection(w: World, env: Env, d: Rows, role: Role): After {
    if !role.Reconciler? && !d.status.Running? then After(Marks(d.steps), d.status, Noop)
    else if role.Resumer? || role.Reconciler? then AfterReconcile(w, env, d, role)
    else AfterAdvance(w, env, d, role)
  }

  predicate NextIsFree(steps: seq<Step>) {
    SequenceFree(steps, MaxSequence(steps) + 1)
  }

  /** Nobody interfering, the number after the maximum is free. */
  lemma {:induction false} NextFree(steps: seq<Step>)
    ensures NextIsFree(steps)
    ensures forall i :: 0 <= i < |steps| ==> steps[i].sequence <= MaxSequence(steps)
  {
    if |steps| > 0 { NextFree(steps[..|steps| - 1]); }
  }

  lemma MarksUpdate(steps: seq<Step>, k: nat, s: Step)
    requires k < |steps|
    ensures |Marks(steps)| == |steps| && Marks(steps[k := s]) == Marks(steps)[k := MarkOf(s)]
  {
  }

  lemma MarksAppend(steps: seq<Step>, s: Step)
    ensures |Marks(steps)| == |steps| && Marks(steps + [s]) == Marks(steps) + [MarkOf(s)]
    ensures Marks(steps + [s])[..|steps|] == Marks(steps)
  {
  }

  // ---------------------------------------------------------------- what an answer tells

  /** What the caller is told of the step `s` that the call took. */
  ghost predicate Tells(st: RuntimeStatus, s: Step) {
    && (st.StepExecuted? <==> s.kind.ToolCall? && s.status.StepCompleted?)
    && (st.Waiting? <==> s.status.StepWaiting?)
    && (st.CallBlocked? <==> s.status.StepBlocked?)
    && (st.CallFailed? <==> s.status.StepFailed?)
    && (st.CallCompleted? <==> !s.kind.ToolCall? && s.status.StepCompleted?)
    && (st.StepExecuted? || st.Waiting? || st.CallBlocked? || st.CallFailed? || st.CallCompleted?)
  }

  /** What the caller is told of the gateway's reply. */
  ghost predicate TellsReply(st: RuntimeStatus, r: Reply) {
    && (st.StepExecuted? <==> r.RepliesExecuted?) && (st.Waiting? <==> r.RepliesApproval?)
    && (st.CallBlocked? <==> r.RepliesBlocked?) && (st.CallFailed? <==> r.RepliesFailed?)
  }

  /** What the caller is told of the decision that was carried out. */
  ghost predicate TellsPlan(st: RuntimeStatus, readOnly: set<string>, plan: Plan, first: Reply, retry: Reply) {
    if plan.DoCall? then
      TellsReply(st, if first.RepliesFailed? && plan.call.tool in readOnly then retry else first)
    else if plan.DoComplete? then st.CallCompleted? else st.CallFailed?
  }

  /** What is left of a RUNNING execution that took the step `s`. */
  ghost predicate Leaves(status: ExecutionStatus, s: Step) {
    && (status.Running? <==> s.kind.ToolCall? && s.status.StepCompleted?)
    && (status.WaitingApproval? <==> s.status.StepWaiting?)
    && (status.Blocked? <==> s.status.StepBlocked?)
    && (status.Failed? <==> s.status.StepFailed?)
    && (status.Completed? <==> !s.kind.ToolCall? && s.status.StepCompleted?)
  }

  /** What the caller is told of a waiting step that has been resolved. */
  ghost predicate TellsVerdict(st: RuntimeStatus, s: Step) {
    && (st.CallCompleted? <==> s.status.StepCompleted?)
    && (st.CallBlocked? <==> s.status.StepBlocked?)
    && (st.CallFailed? <==> s.status.StepFailed?)
    && (st.CallCompleted? || st.CallBlocked? || st.CallFailed?)
  }

  /** The step that a call on `before` steps took is the last one, if it has added any, or the one it was for. */
  ghost predicate Told(before: nat, k: nat, was: ExecutionStatus, steps: seq<Step>, status: ExecutionStatus,
      st: RuntimeStatus)
  {
    var i := if |steps| > before then |steps| - 1 else k;
    i < |steps| && Tells(st, steps[i]) && (was.Running? ==> Leaves(status, steps[i]))
  }

  lemma MarkAt(steps: seq<Step>, i: nat)
    requires i < |steps|
    ensures |Marks(steps)| == |steps| && Marks(steps)[i].status == steps[i].status
    ensures Marks(steps)[i].tool.Some? <==> steps[i].kind.ToolCall?
  {
  }

  lemma CallTold(before: seq<Mark>, k: nat, tool: string, retries: bool, first: Reply, retry: Reply,
                 was: ExecutionStatus, steps: seq<Step>, status: ExecutionStatus, st: RuntimeStatus)
    requires k < |before|
    requires After(Marks(steps), status, st) == AfterCall(before, k, tool, retries, first, retry, was)
    ensures Told(|before|, k, was, steps, status, st)
    ensures |steps| > |before| <==> first.RepliesFailed? && retries
    ensures |steps| > |before| ==> steps[k].status.StepFailed?
    ensures TellsReply(st, if first.RepliesFailed? && retries then retry else first)
  {
    var i := if |Marks(steps)| > |before| then |before| else k;
    assert |Marks(steps)| == |steps|;
    MarkAt(steps, i);
    MarkAt(steps, k);
    hide Marks;
  }

  lemma PlanTold(cfg: Config, before: seq<Mark>, plan: Plan, first: Reply, retry: Reply,
                 was: ExecutionStatus, steps: seq<Step>, status: ExecutionStatus, st: RuntimeStatus)
    requires After(Marks(steps), status, st) == AfterPlan(cfg, before, plan, first, retry, was)
    ensures |steps| > |before| && Told(|before|, 0, was, steps, status, st)
    ensures TellsPlan(st, cfg.readOnly, plan, first, retry) && (steps[|before|].kind.ToolCall? <==> plan.DoCall?)
  {
    assert |Marks(steps)| == |steps|;
    if plan.DoCall? {
      var t := plan.call.tool;
      var more := before + [Mark(Some(t), StepPending)];
      CallTold(more, |before|, t, t in cfg.readOnly, first, retry, was, steps, status, st);
    }
    MarkAt(steps, |before|);
    hide Marks, Tells, Leaves;
  }

  /** The approval that step `k` waits for is there and past deciding. */
  predicate Resolved(d: Rows, k: nat)
    requires k < |d.steps|
  {
    var a := d.steps[k].approval;
    a.Some? && a.value < |d.approvals| &&
    (d.approvals[a.value].status.Rejected? || d.approvals[a.value].status.Expired? ||
     d.approvals[a.value].status.ApprovalExecuted?)
  }

  /** The action that step `k` waits for has run and succeeded. */
  predicate Ran(d: Rows, k: nat)
    requires k < |d.steps|
  {
    Resolved(d, k) &&
    var p := d.approvals[d.steps[k].approval.value];
    p.status.ApprovalExecuted? && p.request < |d.requests| && d.requests[p.request].status.Executed?
  }

  /** What a section answers and leaves, by the rows it found: a step or a submission takes a step; a resume
      or a reconciliation gives the newest waiting step its verdict, if there is one, and only a resume goes
      on, to a step of its own, and only after a success. */
  ghost predicate ToldAll(d: Rows, role: Role, steps: seq<Step>, status: ExecutionStatus, st: RuntimeStatus) {
    if !role.Reconciler? && !d.status.Running? then st.Noop? && |steps| == |d.steps|
    else if role.Stepper? || role.Submitter? then
      |steps| > |d.steps| && Told(|d.steps|, 0, d.status, steps, status, st)
    else
      var k := LastWaiting(d.steps);
      if k.None? || !Resolved(d, k.value) then st.Noop? && |steps| == |d.steps|
      else if role.Resumer? && Ran(d, k.value) then
        && |steps| > |d.steps| && Told(|d.steps|, 0, d.status, steps, status, st)
        && steps[k.value].status.StepCompleted?
      else |steps| == |d.steps| && TellsVerdict(st, steps[k.value])
  }

  /** The bound comes before the decision, and an external caller's action takes the planner's place. */
  ghost predicate Follows(cfg: Config, env: Env, was: ExecutionStatus, role: Role, seen: nat, st: RuntimeStatus) {
    if seen >= cfg.maxSteps then st.CallFailed?
    else
      TellsPlan(st, cfg.readOnly, if role.Submitter? then DoCall(role.call) else env.first.plan,
                ReplyTo(env.first, was), ReplyTo(env.retry, was))
  }

  lemma AdvanceTold(w: World, env: Env, d: Rows, role: Role, steps: seq<Step>, status: ExecutionStatus,
                    st: RuntimeStatus)
    requires After(Marks(steps), status, st) == AfterAdvance(w, env, d, role)
    ensures |steps| > |d.steps| && Told(|d.steps|, 0, d.status, steps, status, st) && !st.Noop? && !st.Conflict?
    ensures Follows(w.cfg, env, d.status, role, |d.steps|, st)
  {
    hide ReplyTo, AfterPlan, TellsReply, Leaves;
    assert |Marks(d.steps)| == |d.steps|;
    hide Marks;
    PlanTold(w.cfg, Marks(d.steps), PlanOf(w, role, |d.steps|, env.first), ReplyTo(env.first, d.status),
             ReplyTo(env.retry, d.status), d.status, steps, status, st);
  }

  lemma VerdictTold(d: Rows, k: nat, v: Verdict)
    requires LastWaiting(d.steps) == Some(k)
    ensures var e := ResolveRows(d, k, v);
      && |e.steps| == |d.steps| && TellsVerdict(AnswerOf(v), e.steps[k]) && (v.VExecuted? ==> e.status == d.status)
      && (v.VExecuted? <==> e.steps[k].status.StepCompleted?)
  {
  }

  lemma VerdictSays(d: Rows, k: nat)
    requires k < |d.steps|
    ensures VerdictOf(d, k).Some? <==> Resolved(d, k)
    ensures VerdictOf(d, k) == Some(VExecuted) <==> Ran(d, k)
  {
  }

  /** An advance leaves the steps before its own as they are. */
  lemma EarlierStands(w: World, env: Env, d: Rows, role: Role, steps: seq<Step>, status: ExecutionStatus,
                      st: RuntimeStatus, k: nat)
    requires After(Marks(steps), status, st) == AfterAdvance(w, env, d, role) && k < |d.steps|
    ensures k < |steps| && steps[k].status == d.steps[k].status
  {
    MarkAt(d.steps, k);
    assert |Marks(steps)| == |steps|;
    if k < |steps| { MarkAt(steps, k); }
    hide Marks, PlanOf, ReplyTo;
  }

  lemma ReconcileTold(w: World, env: Env, d: Rows, role: Role, steps: seq<Step>, status: ExecutionStatus,
                      st: RuntimeStatus)
    requires After(Marks(steps), status, st) == AfterReconcile(w, env, d, role) && (role.Resumer? || role.Reconciler?)
    requires role.Resumer? ==> d.status.Running?
    ensures ToldAll(d, role, steps, status, st) && !st.Conflict?
  {
    if LastWaiting(d.steps).Some? { VerdictSays(d, LastWaiting(d.steps).value); }
    hide Told, TellsVerdict, AfterAdvance, LastWaiting, VerdictOf, ResolveRows, AnswerOf, Resolved, Ran;
    var k := LastWaiting(d.steps);
    var v := if k.Some? then VerdictOf(d, k.value) else None;
    assert |Marks(steps)| == |steps| && |Marks(d.steps)| == |d.steps|;
    if v.Some? {
      var e := ResolveRows(d, k.value, v.value);
      VerdictTold(d, k.value, v.value);
      if v.value.VExecuted? && role.Resumer? {
        AdvanceTold(w, env, e, role, steps, status, st);
        EarlierStands(w, env, e, role, steps, status, st, k.value);
      } else {
        MarkAt(steps, k.value);
        MarkAt(e.steps, k.value);
        SameVerdict(st, e.steps[k.value], steps[k.value]);
        assert |Marks(e.steps)| == |e.steps|;
      }
    }
  }

  lemma SameVerdict(st: RuntimeStatus, s: Step, t: Step)
    requires TellsVerdict(st, s) && s.status == t.status
    ensures TellsVerdict(st, t) && !st.Noop? && !st.Conflict?
  {
  }

  lemma SectionTold(w: World, env: Env, d: Rows, role: Role, steps: seq<Step>, status: ExecutionStatus,
                    st: RuntimeStatus)
    requires After(Marks(steps), status, st) == AfterSection(w, env, d, role)
    ensures ToldAll(d, role, steps, status, st) && !st.Conflict?
    ensures d.status.Running? && (role.Stepper? || role.Submitter?) ==>
      |steps| > |d.steps| && Follows(w.cfg, env, d.status, role, |d.steps|, st)
  {
    hide AfterReconcile, AfterAdvance, Told, TellsVerdict, LastWaiting, Follows;
    assert |Marks(steps)| == |steps| && |Marks(d.steps)| == |d.steps|;
    if !role.Reconciler? && !d.status.Running? {
    } else if role.Resumer? || role.Reconciler? {
      ReconcileTold(w, env, d, role, steps, status, st);
    } else {
      AdvanceTold(w, env, d, role, steps, status, st);
    }
  }

  // ---------------------------------------------------------------- one step

  /** `_run_tool_call_step`; the retry of a read-only tool is its recursive call. */
  method RunToolCallStep(x: Execution, w: World, env: Env, since: int, job: Job) returns (st: RuntimeStatus)
    requires job.step < |x.steps| && x.steps[job.step].kind == ToolCall(job.call) && Past(w, env)
    modifies x
    ensures x.HeldLease() == old(x.HeldLease()) && |x.steps| <= |old(x.steps)| + (if Retries(w, job) then 1 else 0)
    ensures After(Marks(x.steps), x.status, st) ==
      AfterCall(Marks(old(x.steps)), job.step, job.call.tool, Retries(w, job),
                ReplyTo(Answer(env, Gateway(since, job, GwEntry)), old(x.status)),
                ReplyTo(env.retry, old(x.status)), old(x.status))
    ensures Told(|old(x.steps)|, job.step, old(x.status), x.steps, x.status, st)
    ensures |x.steps| > |old(x.steps)| ==> x.steps[job.step].status.StepFailed?
    ensures var first := ReplyTo(Answer(env, Gateway(since, job, GwEntry)), old(x.status));
      TellsReply(st,
                 if first.RepliesFailed? && Retries(w, job) then ReplyTo(env.retry, old(x.status)) else first)
    ensures Reaches(w, env, old(x.Table()), Gateway(since, job, GwEntry), x.Table(), Releasing)
    decreases job.mayRetry
  {
    assert |Marks(x.steps)| == |x.steps|;
    hide Reaches, GoGateway, GoApproval, MaxSequence, SequenceFree, ReplyTo, RunsTool, Invocations, Marks;
    hide Told, TellsReply, AfterReply, AfterCall, Logged, GoLocal, Requests;
    ghost var first := ReplyTo(Answer(env, Gateway(since, job, GwEntry)), x.status);
    ghost var retry, was := ReplyTo(env.retry, x.status), x.status;
    ghost var d, p := x.Table(), Gateway(since, job, GwEntry);
    var res := ToolGateway.Execute(x, w, env, since, job);
    ghost var e := x.Table();
    if res.ResFailed? && job.mayRetry && job.call.tool in w.cfg.readOnly {
      st := Retry(x, w, env, since, job);
      NextFree(e.steps);
      Chain(w, env, d, p, e, Finalizing(since, job, res), x.Table(), Releasing);
    } else {
      st := Conclude(x, w, env, since, job, res, was);
      OneReply(Marks(d.steps), job.step, job.call.tool, Retries(w, job), first, retry, was);
      Then(w, env, d, p, e, Finalizing(since, job, res), x.Table(), Releasing);
    }
    CallTold(Marks(d.steps), job.step, job.call.tool, Retries(w, job), first, retry, was, x.steps, x.status, st);
  }

  lemma OneReply(marks: seq<Mark>, k: nat, tool: string, retries: bool, first: Reply, retry: Reply,
                 st: ExecutionStatus)
    requires k < |marks| && !(first.RepliesFailed? && retries)
    ensures AfterCall(marks, k, tool, retries, first, retry, st) == AfterReply(marks, k, tool, first, st)
  {
    hide AfterReply;
  }

  lemma FinalizingGoes(w: World, env: Env, d: Rows, since: int, job: Job, res: GatewayResult)
    requires job.step < |d.steps|
    ensures var p := Finalizing(since, job, res);
      GoLocal(w, d, p, Answer(env, p)) == GoFinalizing(w, d, since, job, res)
  {
    hide GoFinalizing, GoGateway, GoApproval;
  }

  /** The event that goes with an answer: it says what happened, and a terminal one that it happened. */
  ghost predicate Logged(st: RuntimeStatus, was: ExecutionStatus, e: Event) {
    && (e.StepFinished? <==> st.StepExecuted?) && (e.ExecutionWaiting? <==> st.Waiting?)
    && (e.ExecutionBlocked? <==> st.CallBlocked? && was.Running?)
    && (e.ExecutionFailed? <==> st.CallFailed? && was.Running?)
    && (e.StatusAlreadyTerminal? <==> (st.CallBlocked? || st.CallFailed?) && !was.Running?)
  }

  /** The branches of `_run_tool_call_step` that end it. */
  method Conclude(x: Execution, w: World, ghost env: Env, since: int, job: Job, res: GatewayResult,
        ghost was: ExecutionStatus)
      returns (st: RuntimeStatus)
    requires job.step < |x.steps| && x.steps[job.step].kind == ToolCall(job.call)
    requires !(res.ResFailed? && Retries(w, job)) && x.status == if res.ResApproval? then WaitingApproval else was
    modifies x
    ensures x.HeldLease() == old(x.HeldLease()) && |x.steps| == |old(x.steps)|
    ensures var p := Finalizing(since, job, res);
      GoLocal(w, old(x.Table()), p, Answer(env, p)) == Out(x.Table(), Releasing)
    ensures After(Marks(x.steps), x.status, st) ==
      AfterReply(Marks(old(x.steps)), job.step, job.call.tool, KindOf(res), was)
    ensures res.ResApproval? ==> x.steps[job.step].approval == Some(res.approval)
    ensures |x.events| == |old(x.events)| + 1 && Logged(st, was, x.events[|x.events| - 1])
  {
    ghost var d := x.Table();
    assert |Marks(d.steps)| == |d.steps|;
    FinalizingGoes(w, env, d, since, job, res);
    hide Marks, GoLocal, Answer;
    match res {
      case ResExecuted(_) =>
        x.Finalize(job.step, StepCompleted, None, StepFinished);
        st := StepExecuted;
      case ResApproval(a) =>
        x.Finalize(job.step, StepWaiting, Some(a), ExecutionWaiting);
        st := Waiting;
      case ResBlocked =>
        var _ := x.FinalizeTerminal(job.step, StepBlocked, ExecutionStatus.Blocked);
        st := CallBlocked;
      case ResFailed =>
        var _ := x.FinalizeTerminal(job.step, StepFailed, ExecutionStatus.Failed);
        st := CallFailed;
    }
    MarksUpdate(d.steps, job.step, x.steps[job.step]);
  }

  /** The retry branch of `_run_tool_call_step`: the failed verdict, then one more step. */
  method Retry(x: Execution, w: World, env: Env, since: int, job: Job) returns (st: RuntimeStatus)
    requires job.step < |x.steps| && x.steps[job.step].kind == ToolCall(job.call) && Past(w, env) && Retries(w, job)
    modifies x
    ensures x.HeldLease() == old(x.HeldLease()) && |x.steps| <= |old(x.steps)| + 1
    ensures NextIsFree(old(x.steps)) ==>
      After(Marks(x.steps), x.status, st) ==
        AfterCall(Marks(old(x.steps)), job.step, job.call.tool, true, RepliesFailed,
          ReplyTo(env.retry, old(x.status)), old(x.status))
    ensures Reaches(w, env, old(x.Table()), Finalizing(since, job, ResFailed), x.Table(), Releasing)
    decreases job.mayRetry, 1
  {
    hide Reaches, GoGateway, GoApproval, MaxSequence, SequenceFree, ReplyTo, Marks;
    ghost var d, p := x.Table(), Finalizing(since, job, ResFailed);
    Here(w, env, d, p);
    x.PersistStepOnly(job.step, StepFailed);
    ghost var e := x.Table();
    MarksUpdate(d.steps, job.step, e.steps[job.step]);
    SameNext(d.steps, e.steps);
    Then(w, env, d, p, d, p, e, RetryReadingMax(since, job));
    var next := MaxSequence(x.steps) + 1;
    Then(w, env, d, p, e, RetryReadingMax(since, job), e, RetryInserting(since, job, next));
    st := RetryStep(x, w, env, since, job, next);
    Chain(w, env, d, p, e, RetryInserting(since, job, next), x.Table(), Releasing);
  }

  /** The step of the retry; losing its number gives up on the call. */
  method RetryStep(x: Execution, w: World, env: Env, since: int, job: Job, next: nat) returns (st: RuntimeStatus)
    requires job.step < |x.steps| && x.steps[job.step].kind == ToolCall(job.call) && Past(w, env) && Retries(w, job)
    requires x.steps[job.step].status.StepFailed?
    modifies x
    ensures x.HeldLease() == old(x.HeldLease()) && |x.steps| <= |old(x.steps)| + 1
    ensures SequenceFree(old(x.steps), next) ==>
      After(Marks(x.steps), x.status, st) ==
        AfterCall(Marks(old(x.steps)), job.step, job.call.tool, true, RepliesFailed,
          ReplyTo(env.retry, old(x.status)), old(x.status))
    ensures Reaches(w, env, old(x.Table()), RetryInserting(since, job, next), x.Table(), Releasing)
    decreases job.mayRetry, 0
  {
    hide Reaches, GoGateway, GoApproval, MaxSequence, SequenceFree, ReplyTo, AfterCall;
    ghost var d, p := x.Table(), RetryInserting(since, job, next);
    Here(w, env, d, p);
    assert Marks(d.steps)[job.step := Mark(Some(job.call.tool), StepFailed)] == Marks(d.steps);
    hide Marks;
    var k := x.ClaimStep(next, ToolCall(job.call));
    ghost var f := x.Table();
    if k.Some? {
      MarksAppend(d.steps, f.steps[k.value]);
      var again := Job(k.value, job.call, false);
      Then(w, env, d, p, d, p, f, Gateway(since, again, GwEntry));
      st := RunToolCallStep(x, w, env, since, again);
      RetriedOnce(Marks(d.steps), job, Marks(f.steps), ReplyTo(env.retry, d.status), d.status);
      Chain(w, env, d, p, f, Gateway(since, again, GwEntry), x.Table(), Releasing);
    } else {
      Then(w, env, d, p, d, p, f, GivingUp(since, job));
      var _ := x.FinalizeTerminal(job.step, StepFailed, ExecutionStatus.Failed);
      st := CallFailed;
      Then(w, env, d, p, f, GivingUp(since, job), x.Table(), Releasing);
    }
  }

  /** The second attempt, on the step that was added for it, is the rest of the call. */
  lemma RetriedOnce(before: seq<Mark>, job: Job, after: seq<Mark>, retry: Reply, st: ExecutionStatus)
    requires job.step < |before|
    requires after == before[job.step := Mark(Some(job.call.tool), StepFailed)] +
      [Mark(Some(job.call.tool), StepPending)]
    ensures AfterCall(after, |before|, job.call.tool, false, retry, retry, st) ==
      AfterCall(before, job.step, job.call.tool, true, RepliesFailed, retry, st)
  {
  }

  /** Writing a step's verdict changes no sequence number. */
  lemma {:induction false} SameNext(a: seq<Step>, b: seq<Step>)
    requires |a| == |b| && forall i :: 0 <= i < |a| ==> a[i].sequence == b[i].sequence
    ensures MaxSequence(a) == MaxSequence(b) && (NextIsFree(a) <==> NextIsFree(b))
  {
    if |a| > 0 { SameNext(a[..|a| - 1], b[..|b| - 1]); }
  }

  /** `_advance`, and the body of `submit_external_action`: the bound, the decision, one step. */
  method Advance(x: Execution, w: World, env: Env, role: Role, since: int) returns (st: RuntimeStatus)
    requires Past(w, env)
    modifies x
    ensures x.HeldLease() == old(x.HeldLease()) && |x.steps| <= |old(x.steps)| + 2
    ensures After(Marks(x.steps), x.status, st) == AfterAdvance(w, env, old(x.Table()), role)
    ensures |x.steps| > |old(x.steps)| && Told(|old(x.steps)|, 0, old(x.status), x.steps, x.status, st)
    ensures Follows(w.cfg, env, old(x.status), role, |old(x.steps)|, st)
    ensures Reaches(w, env, old(x.Table()), Loading(role, since), x.Table(), Releasing)
  {
    hide Reaches, GoGateway, GoApproval, MaxSequence, SequenceFree, PlanOf, ReplyTo, AfterPlan, Marks;
    hide Told, Follows;
    ghost var d, p := x.Table(), Loading(role, since);
    Here(w, env, d, p);
    var seen := |x.steps|;
    Then(w, env, d, p, d, p, d, Deciding(role, since, seen));
    var plan := PlanOf(w, role, seen, env.first);
    Then(w, env, d, p, d, Deciding(role, since, seen), d, ReadingMax(since, plan, seen));
    var next := MaxSequence(x.steps) + 1;
    Then(w, env, d, p, d, ReadingMax(since, plan, seen), d, Inserting(since, plan, seen, next));
    st := TakeStep(x, w, env, since, plan, seen, next);
    NextFree(d.steps);
    Chain(w, env, d, p, d, Inserting(since, plan, seen, next), x.Table(), Releasing);
    AdvanceTold(w, env, d, role, x.steps, x.status, st);
  }

  /** `_claim_step`'s insert, and the step taken; losing the number is a CONFLICT without a change. */
  method TakeStep(x: Execution, w: World, env: Env, since: int, plan: Plan, seen: nat, next: nat)
      returns (st: RuntimeStatus)
    requires Past(w, env)
    modifies x
    ensures x.HeldLease() == old(x.HeldLease()) && |x.steps| <= |old(x.steps)| + 2
    ensures if SequenceFree(old(x.steps), next)
      then After(Marks(x.steps), x.status, st) ==
        AfterPlan(w.cfg, Marks(old(x.steps)), plan, ReplyTo(env.first, old(x.status)),
          ReplyTo(env.retry, old(x.status)), old(x.status))
      else st.Conflict? && x.Table() == old(x.Table())
    ensures Reaches(w, env, old(x.Table()), Inserting(since, plan, seen, next), x.Table(), Releasing)
  {
    hide Reaches, GoGateway, GoApproval, MaxSequence, SequenceFree, PlanOf, ReplyTo, Marks;
    ghost var d, p := x.Table(), Inserting(since, plan, seen, next);
    Here(w, env, d, p);
    var k := x.ClaimStep(next, PlanKind(plan));
    ghost var e := x.Table();
    if k.None? {
      Then(w, env, d, p, d, p, e, Releasing);
      return Conflict;
    }
    MarksAppend(d.steps, e.steps[k.value]);
    ghost var q := if plan.DoCall? then Announcing(since, Job(k.value, plan.call, true))
      else Closing(since, k.value, plan);
    Then(w, env, d, p, d, p, e, q);
    st := RunPlan(x, w, env, since, k.value, plan);
    Chain(w, env, d, p, e, q, x.Table(), Releasing);
  }

  /** The decision, once its step has been claimed. */
  method RunPlan(x: Execution, w: World, env: Env, since: int, k: nat, plan: Plan) returns (st: RuntimeStatus)
    requires k + 1 == |x.steps| && x.steps[k].kind == PlanKind(plan) && x.steps[k].status.StepPending? && Past(w, env)
    modifies x
    ensures x.HeldLease() == old(x.HeldLease()) && |x.steps| <= |old(x.steps)| + 1
    ensures After(Marks(x.steps), x.status, st) ==
      AfterPlan(w.cfg, Marks(old(x.steps))[..k], plan, ReplyTo(env.first, old(x.status)),
        ReplyTo(env.retry, old(x.status)), old(x.status))
    ensures Reaches(w, env, old(x.Table()),
                    if plan.DoCall? then Announcing(since, Job(k, plan.call, true)) else Closing(since, k, plan),
                    x.Table(), Releasing)
  {
    hide Reaches, GoGateway, GoApproval, MaxSequence, SequenceFree, PlanOf, ReplyTo, AfterCall;
    ghost var d := x.Table();
    assert Marks(d.steps) == Marks(d.steps)[..k] + [MarkOf(d.steps[k])];
    hide Marks;
    if plan.DoCall? {
      var job := Job(k, plan.call, true);
      Here(w, env, d, Announcing(since, job));
      x.AddEvents([StepStarted]);
      ghost var e := x.Table();
      Then(w, env, d, Announcing(since, job), d, Announcing(since, job), e, Gateway(since, job, GwEntry));
      st := RunToolCallStep(x, w, env, since, job);
      Chain(w, env, d, Announcing(since, job), e, Gateway(since, job, GwEntry), x.Table(), Releasing);
    } else {
      ghost var p := Closing(since, k, plan);
      Here(w, env, d, p);
      var t := if plan.DoComplete? then Completed else ExecutionStatus.Failed;
      var _ := x.FinalizeTerminal(k, if plan.DoComplete? then StepCompleted else StepFailed, t);
      st := if plan.DoComplete? then CallCompleted else CallFailed;
      MarksUpdate(d.steps, k, x.steps[k]);
      Then(w, env, d, p, d, p, x.Table(), Releasing);
    }
  }

  // ---------------------------------------------------------------- resume and reconcile

  /** A RUNNING execution after a verdict: only a completed step lets it go on. */
  predicate Goes(status: ExecutionStatus, verdict: StepStatus) {
    (status.Running? <==> verdict.StepCompleted?) && (status.Blocked? <==> verdict.StepBlocked?) &&
    (status.Failed? <==> verdict.StepFailed?)
  }

  /** `_resolve_pending_step`; None is its NOOP. */
  method ResolvePendingStep(x: Execution, w: World, env: Env, role: Role, since: int, k: nat)
      returns (v: Option<Verdict>)
    requires LastWaiting(x.steps) == Some(k)
    modifies x
    ensures x.HeldLease() == old(x.HeldLease()) && |x.steps| == |old(x.steps)|
    ensures v == VerdictOf(old(x.Table()), k)
    ensures v.Some? <==> Resolved(old(x.Table()), k)
    ensures v.Some? ==>
      var p := old(x.approvals)[old(x.steps)[k].approval.value];
      var ran := p.request < |old(x.requests)| && old(x.requests)[p.request].status.Executed?;
      && (x.steps[k].status.StepBlocked? <==> p.status.Rejected?)
      && (x.steps[k].status.StepCompleted? <==> p.status.ApprovalExecuted? && ran)
      && (x.steps[k].status.StepFailed? <==> p.status.Expired? || (p.status.ApprovalExecuted? && !ran))
      && (old(x.status).Running? ==> Goes(x.status, x.steps[k].status))
    ensures v.None? ==> x.Table() == old(x.Table())
    ensures v.Some? ==> x.Table() == ResolveRows(old(x.Table()), k, v.value)
    ensures v.Some? ==>
      Reaches(w, env, old(x.Table()), Resolving(role, since), x.Table(), Resuming(role, since, v.value.VExecuted?))
  {
    hide Reaches, GoLocal, LastWaiting;
    ghost var d := x.Table();
    v := None;
    var a := x.steps[k].approval;
    if a.None? || a.value >= |x.approvals| { return; }
    match x.approvals[a.value].status {
      case Pending => return;
      case Approved => return;
      case Rejected =>
        v := Some(VRejected);
        var _ := x.FinalizeTerminal(k, StepBlocked, ExecutionStatus.Blocked);
      case Expired =>
        v := Some(VExpired);
        var _ := x.FinalizeTerminal(k, StepFailed, ExecutionStatus.Failed);
      case ApprovalExecuted =>
        var r := x.approvals[a.value].request;
        if r < |x.requests| && x.requests[r].status.Executed? {
          v := Some(VExecuted);
          x.Finalize(k, StepCompleted, a, StepFinished);
        } else {
          v := Some(VActionFailed);
          var _ := x.FinalizeTerminal(k, StepFailed, ExecutionStatus.Failed);
        }
    }
    ResolveReaches(w, env, d, role, since, k, v.value);
  }

  lemma ResolveReaches(w: World, env: Env, d: Rows, role: Role, since: int, k: nat, v: Verdict)
    requires LastWaiting(d.steps) == Some(k) && VerdictOf(d, k) == Some(v)
    ensures Reaches(w, env, d, Resolving(role, since), ResolveRows(d, k, v), Resuming(role, since, v.VExecuted?))
  {
    hide Reaches, GoGateway, GoApproval, LastWaiting, VerdictOf, ResolveRows;
    Here(w, env, d, Resolving(role, since));
    Then(w, env, d, Resolving(role, since), d, Resolving(role, since), d, ResolveCommit(role, since, k, v));
    Then(w, env, d, Resolving(role, since), d, ResolveCommit(role, since, k, v), ResolveRows(d, k, v),
         Resuming(role, since, v.VExecuted?));
  }

  /** What is left of resume and reconcile after the claim: resolve, say so, and go on or stop. */
  method Reconcile(x: Execution, w: World, env: Env, role: Role, since: int) returns (st: RuntimeStatus)
    requires Past(w, env)
    modifies x
    ensures x.HeldLease() == old(x.HeldLease()) && |x.steps| <= |old(x.steps)| + (if role.Resumer? then 2 else 0)
    ensures After(Marks(x.steps), x.status, st) == AfterReconcile(w, env, old(x.Table()), role)
    ensures (role.Resumer? && old(x.status).Running?) || role.Reconciler? ==>
      ToldAll(old(x.Table()), role, x.steps, x.status, st)
    ensures st.Noop? ==> x.Table() == old(x.Table())
    ensures Reaches(w, env, old(x.Table()), Resolving(role, since), x.Table(), Releasing)
  {
    hide Reaches, GoGateway, GoApproval, LastWaiting, VerdictOf, MaxSequence, SequenceFree, PlanOf, ReplyTo, Marks,
      ResolveRows, Told, TellsVerdict;
    ghost var d, p := x.Table(), Resolving(role, since);
    Here(w, env, d, p);
    var k := LastWaiting(x.steps);
    if k.None? {
      Then(w, env, d, p, d, p, d, Releasing);
      return Noop;
    }
    var v := ResolvePendingStep(x, w, env, role, since, k.value);
    if v.None? {
      Then(w, env, d, p, d, p, d, Releasing);
      return Noop;
    }
    ghost var e, q := x.Table(), Resuming(role, since, v.value.VExecuted?);
    x.AddEvents([ExecutionResumed]);
    ghost var f := x.Table();
    if v.value.VExecuted? && role.Resumer? {
      Then(w, env, d, p, e, q, f, Loading(role, since));
      st := Advance(x, w, env, role, since);
      NeverNoop(w, env, f, role);
      Chain(w, env, d, p, f, Loading(role, since), x.Table(), Releasing);
    } else {
      Then(w, env, d, p, e, q, f, Releasing);
      st := if v.value.VExecuted? then CallCompleted else if v.value.VRejected? then CallBlocked else CallFailed;
    }
    if (role.Resumer? && d.status.Running?) || role.Reconciler? {
      ReconcileTold(w, env, d, role, x.steps, x.status, st);
    }
  }

  lemma NeverNoop(w: World, env: Env, d: Rows, role: Role)
    ensures !AfterAdvance(w, env, d, role).answer.Noop?
  {
    hide PlanOf, ReplyTo, Marks;
  }

  // ---------------------------------------------------------------- the calls

  /** The `try` block of every runtime call. */
  method Section(x: Execution, w: World, env: Env, role: Role, since: int) returns (st: RuntimeStatus)
    requires Past(w, env)
    modifies x
    ensures x.HeldLease() == old(x.HeldLease()) && |x.steps| <= |old(x.steps)| + (if role.Reconciler? then 0 else 2)
    ensures After(Marks(x.steps), x.status, st) == AfterSection(w, env, old(x.Table()), role)
    ensures st.Noop? ==> x.Table() == old(x.Table())
    ensures Reaches(w, env, old(x.Table()), Checking(role, since), x.Table(), Releasing)
  {
    hide Reaches, GoGateway, GoApproval, LastWaiting, VerdictOf, MaxSequence, SequenceFree;
    hide AfterReconcile, AfterAdvance, Marks;
    ghost var d, p := x.Table(), Checking(role, since);
    Here(w, env, d, p);
    if !role.Reconciler? && !x.status.Running? {
      Then(w, env, d, p, d, p, d, Releasing);
      return Noop;
    }
    if role.Resumer? || role.Reconciler? {
      Then(w, env, d, p, d, p, d, Resolving(role, since));
      st := Reconcile(x, w, env, role, since);
      Chain(w, env, d, p, d, Resolving(role, since), x.Table(), Releasing);
    } else {
      Then(w, env, d, p, d, p, d, Loading(role, since));
      st := Advance(x, w, env, role, since);
      NeverNoop(w, env, d, role);
      Chain(w, env, d, p, d, Loading(role, since), x.Table(), Releasing);
    }
  }

  /** `step`, `resume`, `submit_external_action` and `reconcile_external_step`: they differ only in the
      statuses they accept and in what the section does. */
  method Invoke(x: Execution, w: World, env: Env, role: Role) returns (st: RuntimeStatus)
    requires Past(w, env)
    modifies x
    ensures Reaches(w, env, old(x.Table()), Entering(role), x.Table(), Gone)
    ensures !old(x.status).Running? && !(role.Reconciler? && old(x.status).WaitingApproval?) ==>
      st.Noop? && x.Table() == old(x.Table())
    ensures st.Conflict? <==>
      && (old(x.status).Running? || (role.Reconciler? && old(x.status).WaitingApproval?))
      && old(x.stepping) && env.first.now - w.cfg.ttl <= old(x.claimedAt)
    ensures st.Conflict? ==> x.Table() == old(x.Table())
    ensures EntryAllowed(role, old(x.status)) && LeaseClaimable(old(x.Table()), env.first.now, w.cfg.ttl) ==>
      !x.stepping && After(Marks(x.steps), x.status, st) == AfterSection(w, env, old(x.Table()), role)
    ensures !st.Conflict? && EntryAllowed(role, old(x.status)) ==>
      ToldAll(old(x.Table()), role, x.steps, x.status, st)
    ensures !st.Noop? && !st.Conflict? && (role.Stepper? || role.Submitter?) ==>
      |x.steps| > |old(x.steps)| && Follows(w.cfg, env, old(x.status), role, |old(x.steps)|, st)
  {
    hide Reaches, GoGateway, GoApproval, LastWaiting, VerdictOf, MaxSequence, SequenceFree, AfterSection, Marks;
    hide Told, TellsVerdict, Follows;
    ghost var d, p := x.Table(), Entering(role);
    Here(w, env, d, p);
    if !x.status.Running? && !(role.Reconciler? && x.status.WaitingApproval?) {
      Then(w, env, d, p, d, p, d, Gone);
      return Noop;
    }
    Then(w, env, d, p, d, p, d, Claiming(role));
    var now := env.first.now;
    var claimed := x.ClaimStepping(w.me, now, w.cfg.ttl);
    ghost var e := x.Table();
    if !claimed {
      Then(w, env, d, p, d, Claiming(role), e, Gone);
      return Conflict;
    }
    Then(w, env, d, p, d, Claiming(role), e, Checking(role, now));
    LeaseApart(w, env, d, e, role);
    st := Claimed(x, w, env, role, now);
    Chain(w, env, d, p, e, Checking(role, now), x.Table(), Gone);
    SectionTold(w, env, d, role, x.steps, x.status, st);
  }

  /** What a section comes to does not depend on the lease. */
  lemma LeaseApart(w: World, env: Env, d: Rows, e: Rows, role: Role)
    requires e == d.(lease := e.lease)
    ensures AfterSection(w, env, d, role) == AfterSection(w, env, e, role)
  {
    hide PlanOf, ReplyTo, Marks, LastWaiting, AfterPlan;
  }

  /** The section and its `finally`. */
  method Claimed(x: Execution, w: World, env: Env, role: Role, since: int) returns (st: RuntimeStatus)
    requires Past(w, env) && x.stepping && x.claimId == w.me
    modifies x
    ensures !x.stepping && Reaches(w, env, old(x.Table()), Checking(role, since), x.Table(), Gone)
    ensures After(Marks(x.steps), x.status, st) == AfterSection(w, env, old(x.Table()), role)
  {
    hide Reaches, GoGateway, GoApproval, LastWaiting, VerdictOf, MaxSequence, SequenceFree, AfterSection, Marks;
    ghost var d := x.Table();
    st := Section(x, w, env, role, since);
    ghost var e := x.Table();
    x.ReleaseStepping(w.me);
    Then(w, env, d, Checking(role, since), e, Releasing, x.Table(), Gone);
  }

  method CancelExecution(x: Execution, w: World, env: Env) returns (st: RuntimeStatus)
    modifies x
    ensures Reaches(w, env, old(x.Table()), CxEnter, x.Table(), Gone)
    ensures if old(x.status).Running? || old(x.status).WaitingApproval?
      then st.CallCancelled? && x.status.Cancelled? && x.events == old(x.events) + [ExecutionCancelled]
      else st.Noop? && x.Table() == old(x.Table())
  {
    hide Reaches, GoGateway, GoApproval, GoRuntime;
    ghost var d := x.Table();
    Here(w, env, d, CxEnter);
    var transitioned := x.CancelStatus();
    ghost var e := x.Table();
    Then(w, env, d, CxEnter, d, CxEnter, e, if transitioned then CxLog else Gone);
    if !transitioned { return Noop; }
    x.AddEvents([ExecutionCancelled]);
    Then(w, env, d, CxEnter, e, CxLog, x.Table(), Gone);
    return CallCancelled;
  }
}
