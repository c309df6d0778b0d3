/** The execution protocol as a state machine: any number of callers, one transition per database
    read that matters or per commit, in any order.

    A caller is one API call.  Its program counter carries the values that the call has read and not
    used yet.  A crashed caller is one that is never scheduled again; `Abort` is an exception (for
    instance five audit collisions in a row), which still runs the `finally` that releases the lease.
    What the model cannot see (planner, registry, permission, policy, risk, tool outcome, clock
    readings) is an `Oracle` value, chosen freely at each transition. */
module Protocol {
  import opened Base
  import opened Rows
  import opened Chunks

  datatype Role = Stepper | Resumer | Submitter(call: Call) | Reconciler

  /** What a runtime caller has decided to insert as the next step. */
  datatype Plan = DoCall(call: Call) | DoComplete | DoFail | DoMaxSteps

  /** A claimed TOOL_CALL step being worked on. */
  datatype Job = Job(step: nat, call: Call, mayRetry: bool)

  /** What `ToolGateway.execute` returned. */
  datatype GatewayResult = ResExecuted(request: nat) | ResApproval(approval: nat) | ResBlocked | ResFailed

  datatype GatewayPc =
    | GwEntry | GwRequested | GwCheck
    | GwPolicy(request: nat)
    | GwRisk(request: nat, policy: PolicyAction)
    | GwBlock(request: nat, escalated: bool, incident: bool)
    | GwApprove(request: nat, escalated: bool)
    | GwAllow(request: nat)
    | GwInvoke(request: nat)
    | GwRecord(request: nat, success: bool)

  datatype Verdict = VRejected | VExpired | VExecuted | VActionFailed

  datatype Pc =
    | Starting
    | Entering(role: Role)
    | Claiming(role: Role)
    | Checking(role: Role, since: int)
    | Resolving(role: Role, since: int)
    | ResolveCommit(role: Role, since: int, step: nat, verdict: Verdict)
    | Resuming(role: Role, since: int, more: bool)
    | Loading(role: Role, since: int)
    | Deciding(role: Role, since: int, seen: nat)
    | ReadingMax(since: int, plan: Plan, seen: nat)
    | Inserting(since: int, plan: Plan, seen: nat, next: nat)
    | Announcing(since: int, job: Job)
    | Gateway(since: int, job: Job, at: GatewayPc)
    | Finalizing(since: int, job: Job, result: GatewayResult)
    | RetryReadingMax(since: int, job: Job)
    | RetryInserting(since: int, job: Job, next: nat)
    | GivingUp(since: int, job: Job)
    | Closing(since: int, step: nat, plan: Plan)
    | Releasing
    | ApEnter(approval: nat, approve: bool)
    | ApRead(approval: nat, approve: bool, now: int)
    | ApExpire(approval: nat, now: int)
    | ApExpireRead(approval: nat)
    | ApExpireCommit(approval: nat, sawWaiting: bool)
    | ApCheck(approval: nat, approve: bool, now: int)
    | ApClaim(approval: nat, approve: bool, now: int)
    | ApReject(approval: nat)
    | ApLogApproved(approval: nat)
    | ApLogStarted(approval: nat)
    | ApInvoke(approval: nat)
    | ApOutcome(approval: nat, success: bool)
    | CxEnter
    | CxLog
    | Gone

  datatype Config = Config(maxSteps: nat, ttl: nat, readOnly: set<string>)

  datatype State = State(
    cfg: Config,
    clock: int,
    rows: Rows,
    callers: map<nat, Pc>,
    aborted: nat) // critical sections that ended by exception or by a takeover of their lease

  datatype Oracle = Oracle(
    now: int,              // a clock reading made before the commit that uses it
    plan: Plan,            // the planner's decision; any planner at all
    registered: bool,      // tool known to the registry
    valid: bool,           // arguments pass the tool's input schema
    permission: Permission,
    policy: PolicyAction, matched: bool,
    risk: PolicyAction, signals: nat,
    success: bool,         // outcome of the tool body
    collided: bool)        // the audit number was taken; matters only where an attempt re-reads

  /** What a transition of one caller sees besides the rows, and what it does. */
  datatype World = World(cfg: Config, clock: int, me: nat)

  datatype Out = Out(rows: Rows, pc: Pc)

  datatype Choice =
    | Tick(dt: nat)
    | Arrive(pc: Pc)
    | Abort
    | Note(event: Event)   // an EXTERNAL_* audit row
    | Go(o: Oracle)

  /** The first program counter of each API call (`start_execution` runs once, from Init). */
  predicate EntryPoint(pc: Pc) {
    pc.Entering? || pc.ApEnter? || pc.CxEnter?
  }

  /** The code between a successful `_claim_stepping` and `_release_stepping`. */
  predicate InSection(pc: Pc) {
    pc.Checking? || pc.Resolving? || pc.ResolveCommit? || pc.Resuming? || pc.Loading? || pc.Deciding? ||
    pc.ReadingMax? || pc.Inserting? || pc.Announcing? || pc.Gateway? || pc.Finalizing? ||
    pc.RetryReadingMax? || pc.RetryInserting? || pc.GivingUp? || pc.Closing?
  }

  function Init(cfg: Config): State {
    State(cfg, 0, Rows(Created, None, [], [], [], [], []), map[0 := Starting], 0)
  }

  // ---------------------------------------------------------------- runtime

  /** `status != RUNNING` refuses; `reconcile_external_step` also accepts WAITING_APPROVAL. */
  predicate EntryAllowed(role: Role, st: ExecutionStatus) {
    st.Running? || (role.Reconciler? && st.WaitingApproval?)
  }

  function GoClaiming(w: World, d: Rows, role: Role, now: int): Out {
    if LeaseClaimable(d, now, w.cfg.ttl) then Out(ClaimLease(d, w.me, now, w.cfg.ttl), Checking(role, now))
    else Out(d, Gone)
  }

  function GoChecking(d: Rows, role: Role, since: int): Out {
    Out(d,
        if !role.Reconciler? && !d.status.Running? then Releasing
        else if role.Resumer? || role.Reconciler? then Resolving(role, since)
        else Loading(role, since))
  }

  /** The highest-sequence step that is WAITING_APPROVAL, by index; None when there is none. */
  function LastWaiting(steps: seq<Step>): (r: Option<nat>)
    ensures r.Some? ==> r.value < |steps| && steps[r.value].status.StepWaiting?
    ensures r.Some? ==> forall i :: r.value < i < |steps| ==> !steps[i].status.StepWaiting?
    ensures r.None? ==> forall i :: 0 <= i < |steps| ==> !steps[i].status.StepWaiting?
  {
    if |steps| == 0 then None
    else if steps[|steps| - 1].status.StepWaiting? then Some(|steps| - 1)
    else LastWaiting(steps[..|steps| - 1])
  }

  /** The branches of `_resolve_pending_step`; None is its NOOP. */
  function VerdictOf(d: Rows, k: nat): Option<Verdict>
    requires k < |d.steps|
  {
    match d.steps[k].approval
    case None => None
    case Some(a) =>
      if a >= |d.approvals| then None
      else
        match d.approvals[a].status
        case Pending => None
        case Approved => None
        case Rejected => Some(VRejected)
        case Expired => Some(VExpired)
        case ApprovalExecuted =>
          var r := d.approvals[a].request;
          Some(if r < |d.requests| && d.requests[r].status.Executed? then VExecuted else VActionFailed)
  }

  function GoResolving(d: Rows, role: Role, since: int): Out {
    var k := LastWaiting(d.steps);
    if k.None? then Out(d, Releasing)
    else
      var v := VerdictOf(d, k.value);
      Out(d, if v.None? then Releasing else ResolveCommit(role, since, k.value, v.value))
  }

  function ResolveRows(d: Rows, k: nat, v: Verdict): Rows
    requires k < |d.steps|
  {
    match v
    case VRejected => FinalizeExecution(d, k, StepBlocked, ExecutionStatus.Blocked)
    case VExpired => FinalizeExecution(d, k, StepFailed, ExecutionStatus.Failed)
    case VExecuted => FinalizeStep(d, k, StepCompleted, d.steps[k].approval, StepFinished)
    case VActionFailed => FinalizeExecution(d, k, StepFailed, ExecutionStatus.Failed)
  }

  function PlanKind(plan: Plan): StepKind {
    match plan
    case DoCall(call) => ToolCall(call)
    case DoComplete => FinalStep
    case DoFail => FinalStep
    case DoMaxSteps => MaxStepsStep
  }

  /** The step bound first, then the planner (or the external caller's own action). */
  function PlanOf(w: World, role: Role, seen: nat, o: Oracle): Plan {
    if seen >= w.cfg.maxSteps then DoMaxSteps
    else if role.Submitter? then DoCall(role.call)
    else if o.plan.DoMaxSteps? then DoFail
    else o.plan
  }

  /** `_claim_step`'s INSERT; losing the race for the sequence number is a CONFLICT. */
  function GoInserting(d: Rows, since: int, plan: Plan, next: nat): Out {
    if !SequenceFree(d.steps, next) then Out(d, Releasing)
    else
      Out(InsertStep(d, next, PlanKind(plan)),
          if plan.DoCall? then Announcing(since, Job(|d.steps|, plan.call, true)) else Closing(since, |d.steps|, plan))
  }

  predicate Retries(w: World, job: Job) {
    job.mayRetry && job.call.tool in w.cfg.readOnly
  }

  function GoFinalizing(w: World, d: Rows, since: int, job: Job, res: GatewayResult): Out
    requires job.step < |d.steps|
  {
    match res
    case ResExecuted(_) => Out(FinalizeStep(d, job.step, StepCompleted, None, StepFinished), Releasing)
    case ResApproval(a) => Out(FinalizeStep(d, job.step, StepWaiting, Some(a), ExecutionWaiting), Releasing)
    case ResBlocked => Out(FinalizeExecution(d, job.step, StepBlocked, ExecutionStatus.Blocked), Releasing)
    case ResFailed =>
      if Retries(w, job) then Out(SetStep(d, job.step, StepFailed, None), RetryReadingMax(since, job))
      else Out(FinalizeExecution(d, job.step, StepFailed, ExecutionStatus.Failed), Releasing)
  }

  /** A lost sequence race on the retry falls through to finalizing the first step as FAILED. */
  function GoRetryInserting(d: Rows, since: int, job: Job, next: nat): Out {
    if !SequenceFree(d.steps, next) then Out(d, GivingUp(since, job))
    else Out(InsertStep(d, next, ToolCall(job.call)), Gateway(since, Job(|d.steps|, job.call, false), GwEntry))
  }

  function GoClosing(d: Rows, k: nat, plan: Plan): Out
    requires k < |d.steps|
  {
    Out(if plan.DoComplete? then FinalizeExecution(d, k, StepCompleted, ExecutionStatus.Completed)
        else FinalizeExecution(d, k, StepFailed, ExecutionStatus.Failed),
        Releasing)
  }

  predicate IsRuntime(pc: Pc) {
    pc.Entering? || pc.Claiming? || (InSection(pc) && !pc.Gateway?) || pc.Releasing?
  }

  function GoRuntime(w: World, d: Rows, pc: Pc, o: Oracle): Out
    requires IsRuntime(pc)
  {
    match pc
    case Entering(role) => Out(d, if EntryAllowed(role, d.status) then Claiming(role) else Gone)
    case Claiming(role) => if o.now <= w.clock then GoClaiming(w, d, role, o.now) else Out(d, pc)
    case Checking(role, since) => GoChecking(d, role, since)
    case Resolving(role, since) => GoResolving(d, role, since)
    case ResolveCommit(role, since, k, v) =>
      if k < |d.steps| then Out(ResolveRows(d, k, v), Resuming(role, since, v.VExecuted?)) else Out(d, pc)
    case Resuming(role, since, more) =>
      Out(Log(d, [ExecutionResumed]), if more && role.Resumer? then Loading(role, since) else Releasing)
    case Loading(role, since) => Out(d, Deciding(role, since, |d.steps|))
    case Deciding(role, since, seen) => Out(d, ReadingMax(since, PlanOf(w, role, seen, o), seen))
    case ReadingMax(since, plan, seen) => Out(d, Inserting(since, plan, seen, MaxSequence(d.steps) + 1))
    case Inserting(since, plan, seen, next) => GoInserting(d, since, plan, next)
    case Announcing(since, job) => Out(Log(d, [StepStarted]), Gateway(since, job, GwEntry))
    case Finalizing(since, job, res) => if job.step < |d.steps| then GoFinalizing(w, d, since, job, res) else Out(d, pc)
    case RetryReadingMax(since, job) => Out(d, RetryInserting(since, job, MaxSequence(d.steps) + 1))
    case RetryInserting(since, job, next) => GoRetryInserting(d, since, job, next)
    case GivingUp(since, job) =>
      if job.step < |d.steps| then Out(FinalizeExecution(d, job.step, StepFailed, ExecutionStatus.Failed), Releasing)
      else Out(d, pc)
    case Closing(since, k, plan) => if k < |d.steps| then GoClosing(d, k, plan) else Out(d, pc)
    case Releasing => Out(ReleaseLease(d, w.me), Gone)
  }

  // ---------------------------------------------------------------- gateway

  /** Terminal and waiting executions accept no new tool call. */
  predicate GatewayOpen(st: ExecutionStatus) {
    !Terminal(st) && !st.WaitingApproval?
  }

  function GwReturn(since: int, job: Job, d: Rows, res: GatewayResult): Out {
    Out(d, Finalizing(since, job, res))
  }

  function GwMove(since: int, job: Job, d: Rows, at: GatewayPc): Out {
    Out(d, Gateway(since, job, at))
  }

  /** Registry, input schema and permission, each with its own commit. */
  function GoGwCheck(d: Rows, since: int, job: Job, o: Oracle): Out {
    var r := |d.requests|;
    if !o.registered || !o.valid then
      GwReturn(since, job, Log(NewRequest(d, job.call, PermitDeny, RequestFailed), [ToolFailed]), ResFailed)
    else
      match o.permission
      case PermitDeny =>
        GwReturn(since, job, Log(NewRequest(d, job.call, PermitDeny, Denied), [PermissionChecked, ActionDenied]),
          ResBlocked)
      case PermitConditional =>
        GwMove(since, job,
               Log(NewRequest(d, job.call, PermitConditional, Requested), [PermissionChecked, PolicyEvaluationStarted]),
               GwPolicy(r))
      case PermitAllow =>
        GwMove(since, job, Log(NewRequest(d, job.call, PermitAllow, Requested), [PermissionChecked]), GwRisk(r, Allow))
  }

  function GoGwPolicy(d: Rows, since: int, job: Job, r: nat, o: Oracle): Out
    requires r < |d.requests|
  {
    var e := Log(RecordPolicy(d, r, o.policy), PolicyChunk(o.matched, o.policy));
    if o.policy.Block? then GwReturn(since, job, SetRequestStatus(e, r, Denied), ResBlocked)
    else GwMove(since, job, e, GwRisk(r, o.policy))
  }

  /** The risk chunk; a direct ALLOW also writes its synthetic ALLOW PolicyDecision here. */
  function GoGwRisk(d: Rows, since: int, job: Job, r: nat, policy: PolicyAction, o: Oracle): Out
    requires r < |d.requests|
  {
    var c := if d.requests[r].permission.PermitAllow? then RecordPolicy(d, r, policy) else d;
    var final := CombineDecisions(policy, o.risk);
    GwMove(since, job, Log(RecordRisk(c, r, o.risk), RiskChunk(o.signals)),
           match final
           case Block => GwBlock(r, final != policy, o.signals > 0)
           case RequireApproval => GwApprove(r, final != policy)
           case Allow => GwAllow(r))
  }

  /** `_create_approval_and_commit`: at most one call can move the execution out of RUNNING. */
  function GoGwApprove(d: Rows, since: int, job: Job, r: nat, escalated: bool, now: int): Out
    requires r < |d.requests|
  {
    if d.status.Running? then
      GwReturn(since, job, Log(AdmitApproval(d, r, now), ApprovalChunk(escalated)), ResApproval(|d.approvals|))
    else GwReturn(since, job, d, ResFailed)
  }

  function GoGateway(w: World, d: Rows, since: int, job: Job, at: GatewayPc, o: Oracle): Out {
    match at
    case GwEntry =>
      if GatewayOpen(d.status) then GwMove(since, job, d, GwRequested) else GwReturn(since, job, d, ResFailed)
    case GwRequested => GwMove(since, job, Log(d, [ToolRequested]), GwCheck)
    case GwCheck => GoGwCheck(d, since, job, o)
    case GwPolicy(r) => if r < |d.requests| then GoGwPolicy(d, since, job, r, o) else GwMove(since, job, d, at)
    case GwRisk(r, policy) =>
      if r < |d.requests| then GoGwRisk(d, since, job, r, policy, o) else GwMove(since, job, d, at)
    case GwBlock(r, escalated, incident) =>
      if r < |d.requests| then
        GwReturn(since, job, Log(SetRequestStatus(d, r, Denied), RiskBlockChunk(escalated, incident)), ResBlocked)
      else GwMove(since, job, d, at)
    case GwApprove(r, escalated) =>
      if r < |d.requests| && o.now <= w.clock then GoGwApprove(d, since, job, r, escalated, o.now)
      else GwMove(since, job, d, at)
    case GwAllow(r) => GwMove(since, job, Log(d, [ActionAllowed]), GwInvoke(r))
    case GwInvoke(r) => GwMove(since, job, Trace(d, Invoked(r, job.call)), GwRecord(r, o.success))
    case GwRecord(r, success) =>
      if r >= |d.requests| then GwMove(since, job, d, at)
      else if success then GwReturn(since, job, Log(SetRequestStatus(d, r, Executed), [ToolExecuted]), ResExecuted(r))
      else GwReturn(since, job, Log(SetRequestStatus(d, r, RequestFailed), [ToolFailed]), ResFailed)
  }

  // ---------------------------------------------------------------- approval engine

  predicate IsApproval(pc: Pc) {
    pc.ApEnter? || pc.ApRead? || pc.ApExpire? || pc.ApExpireRead? || pc.ApExpireCommit? || pc.ApCheck? ||
    pc.ApClaim? || pc.ApReject? || pc.ApLogApproved? || pc.ApLogStarted? || pc.ApInvoke? || pc.ApOutcome?
  }

  function GoApRead(d: Rows, a: nat, approve: bool, now: int): Out
    requires a < |d.approvals|
  {
    Out(d,
        if !d.approvals[a].status.Pending? then Gone
        else if d.approvals[a].expiresAt <= now then ApExpire(a, now)
        else ApCheck(a, approve, now))
  }

  function GoApproval(w: World, d: Rows, pc: Pc, o: Oracle): Out
    requires IsApproval(pc)
  {
    var a := pc.approval;
    if a >= |d.approvals| || d.approvals[a].request >= |d.requests| then Out(d, Gone) // not found
    else
      var r := d.approvals[a].request;
      match pc
      case ApEnter(_, approve) => if o.now <= w.clock then Out(d, ApRead(a, approve, o.now)) else Out(d, pc)
      case ApRead(_, approve, now) => GoApRead(d, a, approve, now)
      case ApExpire(_, now) =>
        Out(ClaimExpiry(d, a, now), if d.approvals[a].status.Pending? then ApExpireRead(a) else Gone)
      case ApExpireRead(_) => Out(d, ApExpireCommit(a, d.status.WaitingApproval?))
      case ApExpireCommit(_, sawWaiting) =>
        if o.collided then Out(d, ApExpireRead(a)) else Out(CommitExpiry(d, a, sawWaiting), Gone)
      case ApCheck(_, approve, now) =>
        Out(d, if d.requests[r].status.RequiresApproval? && d.status.WaitingApproval? then ApClaim(a, approve, now)
          else Gone)
      case ApClaim(_, approve, now) =>
        Out(ClaimApproval(d, a, approve, now),
            if !ApprovalClaimable(d, a, now) then Gone else if approve then ApLogApproved(a) else ApReject(a))
      case ApReject(_) => Out(CommitRejection(d, a), Gone)
      case ApLogApproved(_) => Out(Log(d, [ApprovalApproved]), ApLogStarted(a))
      case ApLogStarted(_) => Out(Log(d, [ActionExecutionStarted]), ApInvoke(a))
      case ApInvoke(_) =>
        if o.registered then Out(Trace(d, Invoked(r, d.approvals[a].call)), ApOutcome(a, o.success))
        else Out(d, ApOutcome(a, false))
      case ApOutcome(_, success) => Out(CommitOutcome(d, a, success), Gone)
  }

  // ---------------------------------------------------------------- the machine

  predicate IsOther(pc: Pc) {
    pc.Starting? || pc.CxEnter? || pc.CxLog? || pc.Gone?
  }

  function GoOther(d: Rows, pc: Pc): Out
    requires IsOther(pc)
  {
    match pc
    case Starting => Out(StartExecution(d), Gone)
    case CxEnter => Out(Cancel(d), if Cancellable(d) then CxLog else Gone)
    case CxLog => Out(Log(d, [ExecutionCancelled]), Gone)
    case Gone => Out(d, Gone)
  }

  function GoLocal(w: World, d: Rows, pc: Pc, o: Oracle): Out {
    if pc.Gateway? then GoGateway(w, d, pc.since, pc.job, pc.at, o)
    else if IsApproval(pc) then GoApproval(w, d, pc, o)
    else if IsOther(pc) then GoOther(d, pc)
    else GoRuntime(w, d, pc, o)
  }

  predicate HoldsLease(d: Rows, x: nat) {
    d.lease.Some? && d.lease.value.holder == x
  }

  /** A claim that succeeded over a lease still set: its holder had died or overrun. */
  predicate Takeover(d: Rows, pc: Pc, out: Out) {
    pc.Claiming? && out.pc.Checking? && d.lease.Some?
  }

  predicate NoteAllowed(e: Event) {
    e.ExternalRequestReceived? || e.ExternalActionCompleted?
  }

  /** One transition.  A choice that is not possible in `s` leaves it as it is. */
  function Apply(s: State, x: nat, c: Choice): State {
    match c
    case Tick(dt) => s.(clock := s.clock + dt)
    case Note(e) => if NoteAllowed(e) then s.(rows := Log(s.rows, [e])) else s
    case Arrive(pc) => if x !in s.callers && EntryPoint(pc) then s.(callers := s.callers[x := pc]) else s
    case Abort =>
      if x !in s.callers || s.callers[x].Releasing? then s
      else if InSection(s.callers[x]) then
        // the section of a holder that was already taken over was counted then
        s.(callers := s.callers[x := Releasing], aborted := s.aborted + if HoldsLease(s.rows, x) then 1 else 0)
      else s.(callers := s.callers[x := Gone])
    case Go(o) =>
      if x !in s.callers then s
      else
        var out := GoLocal(World(s.cfg, s.clock, x), s.rows, s.callers[x], o);
        s.(rows := out.rows, callers := s.callers[x := out.pc],
           aborted := s.aborted + if Takeover(s.rows, s.callers[x], out) then 1 else 0)
  }

  datatype Turn = Turn(who: nat, choice: Choice)

  /** The state after a whole schedule. */
  function Run(s: State, schedule: seq<Turn>): State {
    if |schedule| == 0 then s
    else
      var t := schedule[|schedule| - 1];
      Apply(Run(s, schedule[..|schedule| - 1]), t.who, t.choice)
  }

  lemma RunOne(s: State, t: Turn)
    ensures Run(s, [t]) == Apply(s, t.who, t.choice)
  {
    assert [t][..0] == [];
  }

  lemma {:induction false} RunConcat(s: State, a: seq<Turn>, b: seq<Turn>)
    ensures Run(s, a + b) == Run(Run(s, a), b)
  {
    hide Apply;
    if |b| == 0 {
      assert a + b == a;
    } else {
      assert (a + b)[..|a + b| - 1] == a + b[..|b| - 1];
      RunConcat(s, a, b[..|b| - 1]);
    }
  }

  /** The first turn of a schedule, then the rest. */
  lemma RunFirst(s: State, t: Turn, more: seq<Turn>)
    ensures Run(s, [t] + more) == Run(Apply(s, t.who, t.choice), more)
  {
    hide Apply;
    RunConcat(s, [t], more);
    RunOne(s, t);
  }
}
