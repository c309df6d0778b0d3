/** The small runtime that Planner reasons with is the runtime of AgentRuntime: each of its advances is
    an `_advance`, followed by the resolution of the approval that the step may have to wait for. */
module PlannedRuns {
  import opened Base
  import opened Rows
  import Pr = Protocol
  import Al = Alone
  import Pl = Planner
  import Ar = AgentRuntime
  import Tg = ToolGateway
  import Ver = Verdicts

  /** The registered names of the planner's tools. */
  function Name(t: Pl.Tool): string {
    match t
    case ReadCustomer => "read_customer"
    case GetPayments => "get_payments"
    case GetSupportTicket => "get_support_ticket"
    case ReadLogs => "read_logs"
    case GetDeployment => "get_deployment"
    case RefundPayment => "refund_payment"
    case SendExternalEmail => "send_external_email"
    case DeployStaging => "deploy_staging"
    case DeployProduction => "deploy_production"
  }

  function PastMark(p: Pl.Past): Ar.Mark {
    Ar.Mark(if p.tool.Some? then Some(Name(p.tool.value)) else None, p.status)
  }

  function PastMarks(history: seq<Pl.Past>): seq<Ar.Mark> {
    seq(|history|, i requires 0 <= i < |history| => PastMark(history[i]))
  }

  /** The decision that the planner hands to the runtime. */
  predicate FitsPlan(plan: Pr.Plan, d: Pl.Decision) {
    match d
    case Act(t, _) => plan.DoCall? && plan.call.tool == Name(t)
    case Complete => plan.DoComplete?
    case Fail => plan.DoFail?
  }

  predicate FitsReply(r: Tg.Reply, p: Pl.Reply) {
    match p
    case Ran(_) => r.RepliesExecuted?
    case Asked => r.RepliesApproval?
    case Refused => r.RepliesBlocked?
    case Broke => r.RepliesFailed?
  }

  /** The verdict that an approval's fate gives its step. */
  function VerdictFor(e: Pl.Ending): Pr.Verdict {
    match e
    case Granted(_) => Pr.VExecuted
    case Denied => Pr.VRejected
    case Lapsed => Pr.VExpired
    case GrantedButFailed => Pr.VActionFailed
  }

  /** The runtime is configured for the planner's tools and bound. */
  ghost predicate Configured(cfg: Pr.Config, maxSteps: nat) {
    cfg.maxSteps == maxSteps && forall t :: Name(t) in cfg.readOnly <==> Pl.ReadOnly(t)
  }

  /** Rows, history and outside answers tell the same story. */
  ghost predicate Aligned(w: Pr.World, env: Al.Env, d: Rows, execution: nat, o: Pl.Objective, maxSteps: nat,
      s: Pl.Progress, a: Pl.Answers)
  {
    && Configured(w.cfg, maxSteps) && d.status.Running? && s.status.Running?
    && Ar.Marks(d.steps) == PastMarks(s.history)
    && FitsPlan(env.first.plan, Pl.NextAction(execution, o, s.history))
    && FitsReply(Tg.ReplyTo(env.first, d.status), a.first) && FitsReply(Tg.ReplyTo(env.retry, d.status), a.retry)
  }

  lemma PastAppend(history: seq<Pl.Past>, p: Pl.Past)
    ensures |PastMarks(history)| == |history| && PastMarks(history + [p]) == PastMarks(history) + [PastMark(p)]
  {
  }

  /** What is left once the waiting step at the end has its verdict. */
  function WithVerdict(r: Ar.After, v: Pr.Verdict): (seq<Ar.Mark>, ExecutionStatus)
    requires |r.marks| > 0
  {
    (r.marks[|r.marks| - 1 := r.marks[|r.marks| - 1].(status := Ver.StatusOf(v))],
     match v
     case VExecuted => Running
     case VRejected => ExecutionStatus.Blocked
     case VExpired => ExecutionStatus.Failed
     case VActionFailed => ExecutionStatus.Failed)
  }

  /** One settled call, on the planner's side. */
  lemma SettleMarks(s: Pl.Progress, t: Pl.Tool, r: Tg.Reply, reply: Pl.Reply, ending: Pl.Ending)
    requires s.status.Running? && FitsReply(r, reply)
    ensures var e := Pl.Settle(s, t, reply, ending);
      var k := |s.history|;
      var after := Ar.AfterReply(PastMarks(s.history) + [Ar.Mark(Some(Name(t)), StepPending)], k, Name(t), r, Running);
      if reply.Asked?
      then after.answer.Waiting? && (PastMarks(e.history), e.status) == WithVerdict(after, VerdictFor(ending))
      else !after.answer.Waiting? && PastMarks(e.history) == after.marks && e.status == after.status
  {
    var e, k, before := Pl.Settle(s, t, reply, ending), |s.history|, PastMarks(s.history);
    var pending := before + [Ar.Mark(Some(Name(t)), StepPending)];
    PastAppend(s.history, e.history[k]);
    hide PastMarks, Name;
    var after := Ar.AfterReply(pending, k, Name(t), r, Running);
    assert after.marks == before + [Ar.Mark(Some(Name(t)), Ar.StepStatusFor(r))];
    if reply.Asked? {
      var verdict := Ar.Mark(Some(Name(t)), Ver.StatusOf(VerdictFor(ending)));
      assert after.marks[k := verdict] == before + [verdict];
    }
  }

  /** Each advance of the planner's runtime is the runtime's: the same steps with the same statuses, the
      same execution status; and where the call waits, the same once its approval's verdict is in. */
  lemma AdvanceIsRuntime(w: Pr.World, env: Al.Env, d: Rows, role: Pr.Role, execution: nat, o: Pl.Objective,
                         maxSteps: nat, s: Pl.Progress, a: Pl.Answers)
    requires Aligned(w, env, d, execution, o, maxSteps, s, a) && (role.Stepper? || role.Resumer?)
    ensures var r, e := Ar.AfterAdvance(w, env, d, role), Pl.Advance(execution, o, maxSteps, s, a);
      if r.answer.Waiting?
      then |r.marks| > 0 && (PastMarks(e.history), e.status) == WithVerdict(r, VerdictFor(a.ending))
      else PastMarks(e.history) == r.marks && e.status == r.status
  {
    PastLength(s.history);
    MarksLength(d.steps);
    hide Pl.NextAction, Tg.ReplyTo, PastMarks, Ar.Marks, Pl.Settle, Name;
    var decision := Pl.NextAction(execution, o, s.history);
    if |s.history| >= maxSteps || decision.Fail? {
      PastAppend(s.history, Pl.Past(None, StepFailed, Pl.NOTHING));
    } else if decision.Complete? {
      PastAppend(s.history, Pl.Past(None, StepCompleted, Pl.NOTHING));
    } else {
      var t := decision.tool;
      var failed := Pl.Past(Some(t), StepFailed, Pl.NOTHING);
      PastAppend(s.history, failed);
      var first, retry := Tg.ReplyTo(env.first, d.status), Tg.ReplyTo(env.retry, d.status);
      SettleMarks(s, t, first, a.first, a.ending);
      SettleMarks(s.(history := s.history + [failed]), t, retry, a.retry, a.ending);
      var pending := PastMarks(s.history) + [Ar.Mark(Some(Name(t)), StepPending)];
      assert pending[|s.history| := Ar.Mark(Some(Name(t)), StepFailed)] == PastMarks(s.history) + [PastMark(failed)];
    }
  }

  lemma PastLength(history: seq<Pl.Past>)
    ensures |PastMarks(history)| == |history|
  {
  }

  lemma MarksLength(steps: seq<Step>)
    ensures |Ar.Marks(steps)| == |steps|
  {
  }

  /** And the verdict comes in as the runtime's resolution of the waiting step, on the rows that the call
      left and whose approval has been resolved since. */
  lemma EndingIsRuntime(w: Pr.World, env: Al.Env, d: Rows, r: Ar.After, v: Pr.Verdict)
    requires |r.marks| > 0 && r.marks[|r.marks| - 1].status.StepWaiting?
    requires Ar.Marks(d.steps) == r.marks && d.status.Running? && Pr.VerdictOf(d, |d.steps| - 1) == Some(v)
    ensures var (marks, status) := WithVerdict(r, v);
      var e := Pr.ResolveRows(d, |d.steps| - 1, v);
      && Pr.LastWaiting(d.steps) == Some(|d.steps| - 1)
      && Ar.Marks(e.steps) == marks && e.status == status
      && (!v.VExecuted? ==> Ar.AfterReconcile(w, env, d, Pr.Resumer) == Ar.After(marks, status, Ar.AnswerOf(v)))
      && (v.VExecuted? ==> Ar.AfterReconcile(w, env, d, Pr.Resumer) == Ar.AfterAdvance(w, env, e, Pr.Resumer))
  {
    var k := |d.steps| - 1;
    var e := Pr.ResolveRows(d, k, v);
    assert r.marks[k] == Ar.MarkOf(d.steps[k]);
    Ar.MarksUpdate(d.steps, k, e.steps[k]);
    hide Ar.Marks, Ar.AfterAdvance, Pr.VerdictOf;
  }
}
