/** External actions: one request row, rebuilt from the step history when a response was lost.

    One external request on an execution of its own; calls come one after another, and each may be cut
    off at any of the points where the service has just committed something. */
module ExternalAction {
  import opened Base
  import R = Rows

  datatype ActionStatus = Received | Processing | Awaiting | Executed | Blocked | Failed

  /** An `external_action_requests` row. */
  datatype Action = Action(
    hash: string,
    tool: string,
    status: ActionStatus,
    approval: Option<nat>,
    error: Option<string>,
    result: Option<string>,
    toolRequest: Option<nat>,
    completedAt: Option<int>)

  /** An `execution_steps` row with the parts of its output that matter here. */
  datatype ActionStep = ActionStep(
    tool: Option<string>, // None: not a TOOL_CALL
    status: R.StepStatus,
    approval: Option<nat>,
    result: Option<string>,
    toolRequest: Option<nat>,
    completedAt: int) // says nothing while the step is PENDING

  datatype Decision = Open | Accepted | Refused | Lapsed | Ran(success: bool, result: Option<string>)

  /** How the gateway treats the call that it is let finish. */
  datatype Reply = Done(result: Option<string>) | Asks(approval: nat) | Denies | Breaks

  /** `retried`: the request of a first, failed attempt of a read-only tool. */
  datatype Gateway = Gateway(reply: Reply, request: Option<nat>, retried: Option<nat>)

  /** Where a call is cut off. `InsideRuntime`: the runtime has claimed a step for it and not finished it. */
  datatype Cut = Never | BeforeRuntime | InsideRuntime | AfterRuntime | AfterCommit

  datatype Response =
    | Answer(status: string, code: Option<string>, approval: Option<nat>, result: Option<string>)
    | IdempotencyConflict | Busy | Lost

  /** The last two are history: how many submissions the runtime has claimed a step for, and how many of
      those were cut off before that step got its verdict. */
  datatype World = World(
    row: Option<Action>,
    steps: seq<ActionStep>,
    decision: Decision,
    submissions: nat,
    inside: nat)

  predicate IsTerminal(st: ActionStatus) {
    st.Executed? || st.Blocked? || st.Failed?
  }

  // ---------------------------------------------------------------- the runtime, as this service sees it

  function StatusOf(r: Reply): R.StepStatus {
    match r
    case Done(_) => R.StepCompleted
    case Asks(_) => R.StepWaiting
    case Denies => R.StepBlocked
    case Breaks => R.StepFailed
  }

  /** The steps that `submit_external_action` leaves behind. */
  function NewSteps(tool: string, g: Gateway, at: int): seq<ActionStep> {
    (if g.retried.Some? then [ActionStep(Some(tool), R.StepFailed, None, None, g.retried, at)] else []) +
    [ActionStep(Some(tool), StatusOf(g.reply), if g.reply.Asks? then Some(g.reply.approval) else None,
                if g.reply.Done? then g.reply.result else None, g.request, at)]
  }

  /** The step of a submission that was cut off inside the runtime. */
  function Abandoned(tool: string, at: int): ActionStep {
    ActionStep(Some(tool), R.StepPending, None, None, None, at)
  }

  /** `_resolve_pending_step`, on a waiting step. */
  function Settle(s: ActionStep, d: Decision, at: int): ActionStep {
    match d
    case Open => s
    case Accepted => s
    case Refused => s.(status := R.StepBlocked, completedAt := at)
    case Lapsed => s.(status := R.StepFailed, completedAt := at)
    case Ran(success, result) =>
      if success then s.(status := R.StepCompleted, result := result, completedAt := at)
      else s.(status := R.StepFailed, completedAt := at)
  }

  /** `reconcile_external_step`: the last waiting step, if there is one. */
  function Reconciled(steps: seq<ActionStep>, d: Decision, at: int): seq<ActionStep> {
    if |steps| == 0 then []
    else if steps[|steps| - 1].status.StepWaiting? then steps[|steps| - 1 := Settle(steps[|steps| - 1], d, at)]
    else Reconciled(steps[..|steps| - 1], d, at) + [steps[|steps| - 1]]
  }

  // ---------------------------------------------------------------- the row

  predicate Matches(s: ActionStep, tool: string) {
    s.tool == Some(tool) && !s.status.StepPending?
  }

  /** `_find_matching_step`: the highest-sequence one. */
  function MatchingStep(steps: seq<ActionStep>, tool: string): (r: Option<ActionStep>)
    ensures r.Some? ==> r.value in steps && Matches(r.value, tool)
    ensures r.None? ==> forall s :: s in steps ==> !Matches(s, tool)
  {
    if |steps| == 0 then None
    else if Matches(steps[|steps| - 1], tool) then Some(steps[|steps| - 1])
    else MatchingStep(steps[..|steps| - 1], tool)
  }

  /** `_sync_from_step`. */
  function Synced(row: Action, s: ActionStep): Action {
    var r := row.(toolRequest := s.toolRequest);
    var t :=
      match s.status
      case StepCompleted => r.(status := Executed, result := s.result)
      case StepWaiting => r.(status := Awaiting, approval := if s.approval.Some? then s.approval else r.approval)
      case StepBlocked => r.(status := Blocked, error := Some("ACTION_BLOCKED"))
      case StepFailed => r.(status := Failed, error := Some("TOOL_EXECUTION_FAILED"))
      case StepPending => r;
    if IsTerminal(t.status) then t.(completedAt := Some(s.completedAt)) else t
  }

  /** The branches of `_invoke_and_apply` on the runtime's result. */
  function FromResult(row: Action, r: Reply): Action {
    match r
    case Done(_) => row.(status := Executed)
    case Asks(a) => row.(status := Awaiting, approval := Some(a))
    case Denies => row.(status := Blocked, error := Some("ACTION_BLOCKED"))
    case Breaks => row.(status := Failed, error := Some("TOOL_EXECUTION_FAILED"))
  }

  /** The end of `_invoke_and_apply`: what it copies from the step. */
  function Completed(row: Action, s: Option<ActionStep>): Action {
    if s.None? then row
    else
      var r := row.(toolRequest := s.value.toolRequest);
      var t := if s.value.status.StepCompleted? then r.(result := s.value.result) else r;
      if IsTerminal(t.status) then t.(completedAt := Some(s.value.completedAt)) else t
  }

  /** `_to_action_response`. */
  function ToResponse(row: Action): Response {
    Answer(match row.status
           case Executed => "EXECUTED"
           case Awaiting => "REQUIRES_APPROVAL"
           case Blocked => "BLOCKED"
           case Failed => "FAILED"
           case _ => "PROCESSING",
           row.error, row.approval, row.result)
  }

  // ---------------------------------------------------------------- one call

  datatype Turn = Turn(g: Gateway, busy: bool, cut: Cut, at: int)

  /** The answer, unless the call was cut off after its last commit. */
  function Deliver(row: Action, cut: Cut): Response {
    if cut.AfterCommit? then Lost else ToResponse(row)
  }

  /** `_invoke_and_apply`. */
  function Invoke(w: World, t: Turn): (World, Response)
    requires w.row.Some?
  {
    var row := w.row.value.(status := Processing);
    var v := w.(row := Some(row));
    if t.cut.BeforeRuntime? then (v, Lost)
    else if t.busy then (v, Busy)
    else if t.cut.InsideRuntime? then
      var steps := w.steps + [Abandoned(row.tool, t.at)];
      (v.(steps := steps, submissions := w.submissions + 1, inside := w.inside + 1), Lost)
    else
      var steps := w.steps + NewSteps(row.tool, t.g, t.at);
      var u := v.(steps := steps, submissions := w.submissions + 1);
      if t.cut.AfterRuntime? then (u, Lost)
      else
        var done := Completed(FromResult(row, t.g.reply), MatchingStep(steps, row.tool));
        (u.(row := Some(done)), Deliver(done, t.cut))
  }

  /** `_reconcile_if_resolved` and the answer. */
  function Reconcile(w: World, t: Turn): (World, Response)
    requires w.row.Some?
  {
    var row := w.row.value;
    if row.approval.None? || w.decision.Open? then (w, Deliver(row, t.cut))
    else if t.cut.BeforeRuntime? || t.cut.InsideRuntime? then (w, Lost)
    else
      var steps := Reconciled(w.steps, w.decision, t.at);
      var v := w.(steps := steps);
      if t.cut.AfterRuntime? then (v, Lost)
      else
        var s := MatchingStep(steps, row.tool);
        var done := if s.Some? then Synced(row, s.value) else row;
        (v.(row := Some(done)), Deliver(done, t.cut))
  }

  /** `_resolve_existing`. */
  function ResolveExisting(w: World, t: Turn): (World, Response)
    requires w.row.Some?
  {
    var row := w.row.value;
    if IsTerminal(row.status) then (w, Deliver(row, t.cut))
    else if row.status.Awaiting? then Reconcile(w, t)
    else
      var s := MatchingStep(w.steps, row.tool);
      if s.Some? then
        var done := Synced(row, s.value);
        (w.(row := Some(done)), Deliver(done, t.cut))
      else Invoke(w, t)
  }

  /** `submit`, for a request of this operator and id. */
  function Submit(w: World, hash: string, tool: string, t: Turn): (World, Response) {
    match w.row
    case Some(row) => if row.hash != hash then (w, IdempotencyConflict) else ResolveExisting(w, t)
    case None => Invoke(w.(row := Some(Action(hash, tool, Received, None, None, None, None, None))), t)
  }

  /** `get_status`: reading a waiting request reconciles it too. */
  function Polled(w: World, t: Turn): World {
    if w.row.Some? && w.row.value.status.Awaiting? then Reconcile(w, t).0 else w
  }

  // ---------------------------------------------------------------- the service

  class ExternalActionService {
    var row: Option<Action>
    var steps: seq<ActionStep>
    var decision: Decision
    ghost var submissions: nat
    ghost var inside: nat

    ghost function Now(): World
      reads this
    {
      World(row, steps, decision, submissions, inside)
    }

    constructor ()
      ensures Now() == World(None, [], Open, 0, 0)
    {
      row, steps, decision, submissions, inside := None, [], Open, 0, 0;
    }

    /** `_find_matching_step`: from the newest step backwards. */
    method FindMatchingStep(tool: string) returns (r: Option<ActionStep>)
      ensures r == MatchingStep(steps, tool)
    {
      var i := |steps|;
      assert steps[..i] == steps;
      while i > 0
        invariant 0 <= i <= |steps| && MatchingStep(steps, tool) == MatchingStep(steps[..i], tool)
      {
        assert steps[..i][..i - 1] == steps[..i - 1];
        if Matches(steps[i - 1], tool) { return Some(steps[i - 1]); }
        i := i - 1;
      }
      return None;
    }

    /** `_sync_from_step`: fields one by one, then the commit. */
    method SyncFromStep(s: ActionStep)
      requires row.Some?
      modifies this`row
      ensures row == Some(Synced(old(row).value, s))
    {
      var r := row.value;
      r := r.(toolRequest := s.toolRequest);
      if s.status.StepCompleted? {
        r := r.(status := ActionStatus.Executed, result := s.result);
      } else if s.status.StepWaiting? {
        r := r.(status := Awaiting);
        if s.approval.Some? { r := r.(approval := s.approval); }
      } else if s.status.StepBlocked? {
        r := r.(status := ActionStatus.Blocked, error := Some("ACTION_BLOCKED"));
      } else if s.status.StepFailed? {
        r := r.(status := ActionStatus.Failed, error := Some("TOOL_EXECUTION_FAILED"));
      }
      if IsTerminal(r.status) { r := r.(completedAt := Some(s.completedAt)); }
      row := Some(r);
    }

    /** `_invoke_and_apply`. */
    method InvokeAndApply(t: Turn) returns (res: Response)
      requires row.Some?
      modifies this
      ensures Now() == Invoke(old(Now()), t).0 && res == Invoke(old(Now()), t).1
    {
      var r := row.value.(status := Processing);
      row := Some(r);
      if t.cut.BeforeRuntime? { return Lost; }
      if t.busy { return Busy; }
      submissions := submissions + 1;
      if t.cut.InsideRuntime? {
        steps, inside := steps + [Abandoned(r.tool, t.at)], inside + 1;
        return Lost;
      }
      steps := steps + NewSteps(r.tool, t.g, t.at);
      if t.cut.AfterRuntime? { return Lost; }
      ApplyResult(t.g.reply);
      return if t.cut.AfterCommit? then Lost else ToResponse(row.value);
    }

    /** The rest of `_invoke_and_apply`: the runtime's status first, then what the step recorded. */
    method ApplyResult(reply: Reply)
      requires row.Some?
      modifies this`row
      ensures row == Some(Completed(FromResult(old(row).value, reply), MatchingStep(steps, old(row).value.tool)))
    {
      var r := row.value;
      match reply {
        case Done(_) => r := r.(status := ActionStatus.Executed);
        case Asks(a) => r := r.(status := Awaiting, approval := Some(a));
        case Denies => r := r.(status := ActionStatus.Blocked, error := Some("ACTION_BLOCKED"));
        case Breaks => r := r.(status := ActionStatus.Failed, error := Some("TOOL_EXECUTION_FAILED"));
      }
      var s := FindMatchingStep(r.tool);
      if s.Some? {
        r := r.(toolRequest := s.value.toolRequest);
        if s.value.status.StepCompleted? { r := r.(result := s.value.result); }
        if IsTerminal(r.status) { r := r.(completedAt := Some(s.value.completedAt)); }
      }
      row := Some(r);
    }

    /** `_reconcile_if_resolved`, called on a row that waits, and the answer after it. */
    method ReconcileIfResolved(t: Turn) returns (res: Response)
      requires row.Some?
      modifies this
      ensures Now() == Reconcile(old(Now()), t).0 && res == Reconcile(old(Now()), t).1
    {
      if row.value.approval.Some? && !decision.Open? {
        if t.cut.BeforeRuntime? || t.cut.InsideRuntime? { return Lost; }
        steps := Reconciled(steps, decision, t.at);
        if t.cut.AfterRuntime? { return Lost; }
        var s := FindMatchingStep(row.value.tool);
        if s.Some? { SyncFromStep(s.value); }
      }
      return if t.cut.AfterCommit? then Lost else ToResponse(row.value);
    }

    /** `get_status`; None is UNKNOWN_ACTION. */
    method GetStatus(t: Turn) returns (found: Option<Action>)
      modifies this
      ensures Now() == Polled(old(Now()), t)
      ensures found == row
    {
      if row.None? { return None; }
      if row.value.status.Awaiting? { var _ := ReconcileIfResolved(t); }
      return row;
    }

    /** `submit`, with `_resolve_existing`. */
    method SubmitAction(hash: string, tool: string, t: Turn) returns (res: Response)
      modifies this
      ensures Now() == Submit(old(Now()), hash, tool, t).0 && res == Submit(old(Now()), hash, tool, t).1
    {
      if row.None? {
        row := Some(Action(hash, tool, Received, None, None, None, None, None));
        res := InvokeAndApply(t);
        return;
      }
      if row.value.hash != hash { return IdempotencyConflict; }
      if IsTerminal(row.value.status) { return if t.cut.AfterCommit? then Lost else ToResponse(row.value); }
      if row.value.status.Awaiting? {
        res := ReconcileIfResolved(t);
        return;
      }
      var s := FindMatchingStep(row.value.tool);
      if s.Some? {
        SyncFromStep(s.value);
        return if t.cut.AfterCommit? then Lost else ToResponse(row.value);
      }
      res := InvokeAndApply(t);
    }
  }

  // ---------------------------------------------------------------- runs

  datatype Event = Call(cut: Cut, busy: bool, at: int) | Poll(cut: Cut, at: int) | Decide(d: Decision)

  predicate MayBecome(d: Decision, e: Decision) {
    (d.Open? && (e.Accepted? || e.Refused? || e.Lapsed?)) || (d.Accepted? && e.Ran?)
  }

  /** The same request again, a look at its status, or the approval moving on. */
  function Next(w: World, hash: string, tool: string, g: Gateway, e: Event): World {
    match e
    case Call(cut, busy, at) => Submit(w, hash, tool, Turn(g, busy, cut, at)).0
    case Poll(cut, at) => Polled(w, Turn(g, false, cut, at))
    case Decide(d) =>
      if w.submissions > w.inside && g.reply.Asks? && MayBecome(w.decision, d) then w.(decision := d) else w
  }

  function Play(hash: string, tool: string, g: Gateway, events: seq<Event>): World {
    if |events| == 0 then World(None, [], Open, 0, 0)
    else Next(Play(hash, tool, g, events[..|events| - 1]), hash, tool, g, events[|events| - 1])
  }

  function Blank(hash: string, tool: string, st: ActionStatus): Action {
    Action(hash, tool, st, None, None, None, None, None)
  }

  predicate Settled(d: Decision) {
    d.Refused? || d.Lapsed? || d.Ran?
  }

  /** The step of the submission that was let finish, as the reply and the decision made it. */
  predicate StepOk(s: ActionStep, tool: string, g: Gateway, d: Decision) {
    var first := NewSteps(tool, g.(retried := None), s.completedAt)[0];
    s == first || (g.reply.Asks? && Settled(d) && s == Settle(first, d, s.completedAt))
  }

  /** The row that `_sync_from_step` makes of step `s`, by way of the wait if there was one. */
  function Mirror(hash: string, tool: string, g: Gateway, s: ActionStep): Action {
    var blank := Blank(hash, tool, Processing);
    if g.reply.Asks?
    then Synced(blank.(status := Awaiting, approval := Some(g.reply.approval), toolRequest := g.request), s)
    else Synced(blank, s)
  }

  predicate RowOk(row: Action, hash: string, tool: string, g: Gateway, s: ActionStep) {
    || (row == Blank(hash, tool, Processing) && (g.reply.Asks? ==> s.status.StepWaiting?))
    || (row.status.Awaiting? && g.reply.Asks? &&
      row == Mirror(hash, tool, g, s.(status := R.StepWaiting, result := None)))
    || (IsTerminal(row.status) && row == Mirror(hash, tool, g, s))
  }

  /** A submission that was let finish has left its steps behind those of the abandoned ones. */
  predicate Taken(w: World) {
    w.submissions == w.inside + 1
  }

  ghost predicate Inv(w: World, hash: string, tool: string, g: Gateway) {
    && w.inside <= w.submissions <= w.inside + 1 && w.inside <= |w.steps|
    && (forall i :: 0 <= i < w.inside ==> w.steps[i].status.StepPending?)
    && (!Taken(w) ==>
          && |w.steps| == w.inside && w.decision.Open?
          && (w.row == Some(Blank(hash, tool, Processing)) || (w.row.None? && w.inside == 0)))
    && (Taken(w) ==>
          && w.row.Some? && w.inside < |w.steps| <= w.inside + 2
          && (forall i :: w.inside <= i < |w.steps| - 1 ==> w.steps[i].status.StepFailed?)
          && StepOk(w.steps[|w.steps| - 1], tool, g, w.decision)
          && RowOk(w.row.value, hash, tool, g, w.steps[|w.steps| - 1]))
  }

  /** The row that `_sync_from_step` rebuilds is the row that `_invoke_and_apply` would have written. */
  lemma RebuiltIsDirect(row: Action, tool: string, g: Gateway, at: int, before: seq<ActionStep>)
    ensures var steps := before + NewSteps(tool, g, at);
      var s := MatchingStep(steps, tool);
      s.Some? && s.value == steps[|steps| - 1] && Completed(FromResult(row, g.reply), s) == Synced(row, s.value)
  {
    var steps := before + NewSteps(tool, g, at);
    assert steps[|steps| - 1] == NewSteps(tool, g, at)[|NewSteps(tool, g, at)| - 1];
  }

  lemma {:induction false} NoneWaits(steps: seq<ActionStep>, d: Decision, at: int)
    requires forall i :: 0 <= i < |steps| ==> !steps[i].status.StepWaiting?
    ensures Reconciled(steps, d, at) == steps
  {
    if |steps| > 0 {
      NoneWaits(steps[..|steps| - 1], d, at);
      assert steps == steps[..|steps| - 1] + [steps[|steps| - 1]];
    }
  }

  lemma ReconciledLast(steps: seq<ActionStep>, d: Decision, at: int)
    requires |steps| > 0 && forall i :: 0 <= i < |steps| - 1 ==> !steps[i].status.StepWaiting?
    ensures var last := steps[|steps| - 1];
      Reconciled(steps, d, at) == if last.status.StepWaiting? then steps[|steps| - 1 := Settle(last, d, at)] else steps
  {
    NoneWaits(steps[..|steps| - 1], d, at);
    assert steps == steps[..|steps| - 1] + [steps[|steps| - 1]];
  }

  function Last(w: World): ActionStep
    requires |w.steps| > 0
  {
    w.steps[|w.steps| - 1]
  }

  lemma NewStepsShape(tool: string, g: Gateway, at: int)
    ensures var steps := NewSteps(tool, g, at);
      && 1 <= |steps| <= 2 && (|steps| == 2 ==> steps[0].status.StepFailed?)
      && StepOk(steps[|steps| - 1], tool, g, Open) && steps[|steps| - 1].status == StatusOf(g.reply)
  {
  }

  /** Bringing the row up to its step keeps it a mirror of that step. */
  lemma SyncKeeps(row: Action, hash: string, tool: string, g: Gateway, s: ActionStep, d: Decision)
    requires StepOk(s, tool, g, d) && RowOk(row, hash, tool, g, s) && !IsTerminal(row.status)
    ensures RowOk(Synced(row, s), hash, tool, g, s)
    ensures IsTerminal(Synced(row, s).status) <==> !s.status.StepWaiting?
    ensures Synced(row, s).status.Awaiting? <==> s.status.StepWaiting?
  {
  }

  lemma InvokeKeeps(w: World, hash: string, tool: string, t: Turn)
    requires Inv(w, hash, tool, t.g) && !Taken(w) && w.row.Some?
    ensures Inv(Invoke(w, t).0, hash, tool, t.g)
    ensures !t.busy && t.cut.Never? ==>
      var v := Invoke(w, t).0;
      Taken(v) && (IsTerminal(v.row.value.status) || (v.row.value.status.Awaiting? && t.g.reply.Asks?))
  {
    hide MatchingStep, NewSteps, StepOk, RowOk, Synced, Completed, FromResult;
    var row, steps := Blank(hash, tool, Processing), NewSteps(tool, t.g, t.at);
    NewStepsShape(tool, t.g, t.at);
    RebuiltIsDirect(row, tool, t.g, t.at, w.steps);
    FreshRow(hash, tool, t.g, steps[|steps| - 1]);
    SyncKeeps(row, hash, tool, t.g, steps[|steps| - 1], Open);
  }

  lemma FreshRow(hash: string, tool: string, g: Gateway, s: ActionStep)
    requires s.status == StatusOf(g.reply)
    ensures RowOk(Blank(hash, tool, Processing), hash, tool, g, s) && (s.status.StepWaiting? <==> g.reply.Asks?)
  {
  }

  lemma LastMatches(steps: seq<ActionStep>, tool: string, g: Gateway, d: Decision)
    requires |steps| > 0 && StepOk(steps[|steps| - 1], tool, g, d)
    ensures MatchingStep(steps, tool) == Some(steps[|steps| - 1])
  {
  }

  lemma SettleKeeps(s: ActionStep, hash: string, tool: string, g: Gateway, d: Decision, at: int, row: Action)
    requires StepOk(s, tool, g, d) && RowOk(row, hash, tool, g, s) && row.status.Awaiting?
    ensures var e := if s.status.StepWaiting? then Settle(s, d, at) else s;
      && StepOk(e, tool, g, d) && RowOk(row, hash, tool, g, e) && g.reply.Asks?
      && (Settled(d) ==> !e.status.StepWaiting?)
  {
  }

  lemma ReconcileKeeps(w: World, hash: string, tool: string, t: Turn)
    requires Inv(w, hash, tool, t.g) && Taken(w) && w.row.value.status.Awaiting?
    ensures Inv(Reconcile(w, t).0, hash, tool, t.g)
    ensures var v := Reconcile(w, t).0; Taken(v) && v.decision == w.decision
    ensures t.cut.Never? && Settled(w.decision) ==> IsTerminal(Reconcile(w, t).0.row.value.status)
  {
    hide MatchingStep, Reconciled, StepOk, RowOk, Synced, Settle;
    var row, s := w.row.value, Last(w);
    ReconciledLast(w.steps, w.decision, t.at);
    SettleKeeps(s, hash, tool, t.g, w.decision, t.at, row);
    var steps := Reconciled(w.steps, w.decision, t.at);
    LastMatches(steps, tool, t.g, w.decision);
    SyncKeeps(row, hash, tool, t.g, steps[|steps| - 1], w.decision);
    AwaitingRow(row, hash, tool, t.g, s);
  }

  lemma AwaitingRow(row: Action, hash: string, tool: string, g: Gateway, s: ActionStep)
    requires RowOk(row, hash, tool, g, s) && row.status.Awaiting?
    ensures g.reply.Asks? && row.approval.Some? && row.tool == tool && row.hash == hash
  {
  }

  lemma RowNames(row: Action, hash: string, tool: string, g: Gateway, s: ActionStep)
    requires RowOk(row, hash, tool, g, s)
    ensures row.tool == tool && row.hash == hash
  {
  }

  lemma CallKeeps(w: World, hash: string, tool: string, t: Turn)
    requires Inv(w, hash, tool, t.g)
    ensures Inv(Submit(w, hash, tool, t).0, hash, tool, t.g)
    ensures t.cut.Never? && !t.busy && (t.g.reply.Asks? ==> Settled(w.decision)) ==>
      Near(Submit(w, hash, tool, t).0, t.g)
    ensures Submit(w, hash, tool, t).0.decision == w.decision
  {
    hide MatchingStep, Reconciled, StepOk, RowOk, Synced, Invoke, Reconcile;
    if !Taken(w) {
      NoMatch(w.steps, tool);
      InvokeKeeps(w.(row := Some(Blank(hash, tool, Processing))), hash, tool, t);
      FirstWrite(w, hash, tool, t);
      InvokeDecision(w.(row := Some(Blank(hash, tool, Processing))), t);
    } else {
      RowNames(w.row.value, hash, tool, t.g, Last(w));
      if w.row.value.status.Awaiting? {
        AwaitingRow(w.row.value, hash, tool, t.g, Last(w));
        ReconcileKeeps(w, hash, tool, t);
      } else if !IsTerminal(w.row.value.status) {
        LastMatches(w.steps, tool, t.g, w.decision);
        SyncKeeps(w.row.value, hash, tool, t.g, Last(w), w.decision);
        if Last(w).status.StepWaiting? { WaitingAsks(Last(w), tool, t.g, w.decision); }
      }
    }
  }

  lemma FirstWrite(w: World, hash: string, tool: string, t: Turn)
    ensures Invoke(w.(row := Some(Blank(hash, tool, Received))), t)
      == Invoke(w.(row := Some(Blank(hash, tool, Processing))), t)
  {
  }

  lemma InvokeDecision(w: World, t: Turn)
    requires w.row.Some?
    ensures Invoke(w, t).0.decision == w.decision
  {
  }

  lemma WaitingAsks(s: ActionStep, tool: string, g: Gateway, d: Decision)
    requires StepOk(s, tool, g, d) && s.status.StepWaiting?
    ensures g.reply.Asks?
  {
  }

  lemma DecisionKeeps(s: ActionStep, tool: string, g: Gateway, d: Decision, e: Decision)
    requires StepOk(s, tool, g, d) && MayBecome(d, e)
    ensures StepOk(s, tool, g, e)
  {
  }

  lemma NextKeeps(w: World, hash: string, tool: string, g: Gateway, e: Event)
    requires Inv(w, hash, tool, g)
    ensures Inv(Next(w, hash, tool, g, e), hash, tool, g)
  {
    hide Submit, Reconcile, StepOk, RowOk;
    match e {
      case Call(cut, busy, at) => CallKeeps(w, hash, tool, Turn(g, busy, cut, at));
      case Poll(cut, at) =>
        if w.row.Some? && w.row.value.status.Awaiting? { ReconcileKeeps(w, hash, tool, Turn(g, false, cut, at)); }
      case Decide(d) =>
        if Taken(w) && MayBecome(w.decision, d) { DecisionKeeps(Last(w), tool, g, w.decision, d); }
    }
  }

  /** The row says all there is to say, or waits for a decision that has been made. */
  predicate Near(w: World, g: Gateway) {
    w.row.Some? && Taken(w) &&
    (IsTerminal(w.row.value.status) || (w.row.value.status.Awaiting? && g.reply.Asks? && Settled(w.decision)))
  }

  lemma {:induction false} NoMatch(steps: seq<ActionStep>, tool: string)
    requires forall i :: 0 <= i < |steps| ==> steps[i].status.StepPending?
    ensures MatchingStep(steps, tool) == None
  {
    if |steps| > 0 { NoMatch(steps[..|steps| - 1], tool); }
  }

  lemma {:induction false} Holds(hash: string, tool: string, g: Gateway, events: seq<Event>)
    ensures Inv(Play(hash, tool, g, events), hash, tool, g)
  {
    hide Next;
    if |events| > 0 {
      Holds(hash, tool, g, events[..|events| - 1]);
      NextKeeps(Play(hash, tool, g, events[..|events| - 1]), hash, tool, g, events[|events| - 1]);
    }
  }

  /** What the request comes to, from the gateway's reply and the approval's fate alone. */
  function FinalResponse(g: Gateway, d: Decision): Response {
    match g.reply
    case Done(result) => Answer("EXECUTED", None, None, result)
    case Denies => Answer("BLOCKED", Some("ACTION_BLOCKED"), None, None)
    case Breaks => Answer("FAILED", Some("TOOL_EXECUTION_FAILED"), None, None)
    case Asks(a) =>
      match d
      case Ran(true, result) => Answer("EXECUTED", None, Some(a), result)
      case Refused => Answer("BLOCKED", Some("ACTION_BLOCKED"), Some(a), None)
      case Open => Answer("REQUIRES_APPROVAL", None, Some(a), None)
      case Accepted => Answer("REQUIRES_APPROVAL", None, Some(a), None)
      case _ => Answer("FAILED", Some("TOOL_EXECUTION_FAILED"), Some(a), None)
  }

  lemma MirrorSays(row: Action, hash: string, tool: string, g: Gateway, s: ActionStep, d: Decision)
    requires StepOk(s, tool, g, d) && RowOk(row, hash, tool, g, s) && IsTerminal(row.status)
    ensures row == Mirror(hash, tool, g, s) && ToResponse(row) == FinalResponse(g, d)
  {
  }

  /** How many calls were to be cut off inside the runtime. */
  function Interruptions(events: seq<Event>): nat {
    if |events| == 0 then 0
    else
      var last := events[|events| - 1];
      Interruptions(events[..|events| - 1]) + if last.Call? && last.cut.InsideRuntime? then 1 else 0
  }

  lemma {:induction false} InsideBounded(hash: string, tool: string, g: Gateway, events: seq<Event>)
    ensures Play(hash, tool, g, events).inside <= Interruptions(events)
  {
    if |events| > 0 {
      InsideBounded(hash, tool, g, events[..|events| - 1]);
      hide Play, MatchingStep, Synced, Completed, FromResult, Reconciled, NewSteps;
    }
  }

  /** However often the same request is sent or its status read, and wherever calls are cut off: the runtime
      lets at most one submission finish, takes no other but those that were cut off inside it, and when the
      row is terminal it says what the finished one came to. */
  lemma RetriesConfluent(hash: string, tool: string, g: Gateway, events: seq<Event>)
    ensures var w := Play(hash, tool, g, events);
      && w.inside <= w.submissions <= w.inside + 1 && w.inside <= Interruptions(events)
      && (w.row.Some? && IsTerminal(w.row.value.status) ==>
            && Taken(w) && |w.steps| > 0 && w.row.value == Mirror(hash, tool, g, Last(w))
            && ToResponse(w.row.value) == FinalResponse(g, w.decision))
  {
    Holds(hash, tool, g, events);
    InsideBounded(hash, tool, g, events);
    var w := Play(hash, tool, g, events);
    hide Play, StepOk, RowOk, Mirror, ToResponse, FinalResponse, Interruptions;
    if w.row.Some? && IsTerminal(w.row.value.status) { MirrorSays(w.row.value, hash, tool, g, Last(w), w.decision); }
  }

  predicate AllPending(steps: seq<ActionStep>) {
    forall s :: s in steps ==> s.status.StepPending?
  }

  /** When the runtime takes another submission, in any state a run can reach: the call gets to it, and no
      step of the execution is past PENDING. */
  lemma SubmitsExactly(hash: string, tool: string, g: Gateway, events: seq<Event>, t: Turn)
    requires t.g == g
    ensures var w := Play(hash, tool, g, events);
      Submit(w, hash, tool, t).0.submissions ==
        w.submissions + if !t.busy && !t.cut.BeforeRuntime? && AllPending(w.steps) then 1 else 0
    ensures var w := Play(hash, tool, g, events);
      Submit(w, hash, tool, t).1.Busy? <==> t.busy && !t.cut.BeforeRuntime? && AllPending(w.steps)
  {
    Holds(hash, tool, g, events);
    SubmitsFrom(Play(hash, tool, g, events), hash, tool, t);
    hide Play;
  }

  lemma SubmitsFrom(w: World, hash: string, tool: string, t: Turn)
    requires Inv(w, hash, tool, t.g)
    ensures AllPending(w.steps) <==> !Taken(w)
    ensures Submit(w, hash, tool, t).0.submissions ==
      w.submissions + if !t.busy && !t.cut.BeforeRuntime? && AllPending(w.steps) then 1 else 0
    ensures Submit(w, hash, tool, t).1.Busy? <==> t.busy && !t.cut.BeforeRuntime? && AllPending(w.steps)
  {
    hide StepOk, RowOk, Synced, Completed, FromResult, Reconciled, NewSteps, MatchingStep;
    if Taken(w) {
      var s := Last(w);
      assert s in w.steps;
      FinishedStep(s, tool, t.g, w.decision);
      RowNames(w.row.value, hash, tool, t.g, s);
      LastMatches(w.steps, tool, t.g, w.decision);
    } else {
      NoMatch(w.steps, tool);
    }
  }

  lemma FinishedStep(s: ActionStep, tool: string, g: Gateway, d: Decision)
    requires StepOk(s, tool, g, d)
    ensures !s.status.StepPending?
  {
  }

  /** A call that gets to the runtime while all there is of an earlier one is its PENDING step. */
  predicate Resubmits(w: World, e: Event) {
    e.Call? && !e.busy && !e.cut.BeforeRuntime? && |w.steps| > 0 && AllPending(w.steps)
  }

  predicate NeverResubmits(hash: string, tool: string, g: Gateway, events: seq<Event>) {
    |events| > 0 ==>
      && NeverResubmits(hash, tool, g, events[..|events| - 1])
      && !Resubmits(Play(hash, tool, g, events[..|events| - 1]), events[|events| - 1])
  }

  /** The submission is taken at most once if and only if no call comes in that way. */
  lemma {:induction false} OnceExactly(hash: string, tool: string, g: Gateway, events: seq<Event>)
    ensures Play(hash, tool, g, events).submissions <= 1 <==> NeverResubmits(hash, tool, g, events)
  {
    if |events| > 0 {
      var before, e := events[..|events| - 1], events[|events| - 1];
      OnceExactly(hash, tool, g, before);
      Holds(hash, tool, g, before);
      var w := Play(hash, tool, g, before);
      assert Play(hash, tool, g, events) == Next(w, hash, tool, g, e);
      hide Play, StepOk, RowOk, Submit;
      if e.Call? { SubmitsFrom(w, hash, tool, Turn(g, e.busy, e.cut, e.at)); }
    }
  }

  /** It does happen: a call cut off inside the runtime, and the same request sent again. */
  lemma SubmittedTwice(hash: string, tool: string, g: Gateway, at: int, later: int)
    ensures var events := [Event.Call(InsideRuntime, false, at), Event.Call(Never, false, later)];
      Play(hash, tool, g, events).submissions == 2 && !NeverResubmits(hash, tool, g, events)
  {
    var e, f := Event.Call(InsideRuntime, false, at), Event.Call(Never, false, later);
    assert [e, f][..1] == [e] && [e][..0] == [];
    CutInside(hash, tool, g, e);
    SubmitsExactly(hash, tool, g, [], Turn(g, false, InsideRuntime, at));
    SubmitsExactly(hash, tool, g, [e], Turn(g, false, Never, later));
    OnceExactly(hash, tool, g, [e, f]);
    hide Submit, Resubmits, NeverResubmits;
  }

  lemma CutInside(hash: string, tool: string, g: Gateway, e: Event)
    requires e.Call? && e.cut.InsideRuntime? && !e.busy
    ensures Play(hash, tool, g, [e]).steps == [Abandoned(tool, e.at)]
  {
    assert [e][..0] == [];
    assert Play(hash, tool, g, []) == World(None, [], Open, 0, 0);
  }

  /** The limit of this: were the step settled by someone else before any retry saw it waiting, the
      rebuilt row would lack the approval's id, and nothing else. */
  lemma SettledElsewhere(hash: string, tool: string, g: Gateway, s: ActionStep, d: Decision)
    requires g.reply.Asks? && Settled(d) && StepOk(s, tool, g, d) && !s.status.StepWaiting?
    ensures Synced(Blank(hash, tool, Processing), s) == Mirror(hash, tool, g, s).(approval := None)
    ensures Mirror(hash, tool, g, s).approval == Some(g.reply.approval)
  {
  }

  /** A terminal answer is given again, unchanged, to every later retry. */
  lemma TerminalRepeats(w: World, hash: string, tool: string, t: Turn)
    requires w.row.Some? && IsTerminal(w.row.value.status) && w.row.value.hash == hash
    ensures Submit(w, hash, tool, t) == (w, if t.cut.AfterCommit? then Lost else ToResponse(w.row.value))
  {
    hide ToResponse;
  }

  /** Another payload under the same id is refused, at every stage, and changes nothing. */
  lemma OtherPayloadRefused(hash: string, tool: string, g: Gateway, events: seq<Event>, other: string,
      otherTool: string, t: Turn)
    requires other != hash && Play(hash, tool, g, events).row.Some?
    ensures Submit(Play(hash, tool, g, events), other, otherTool, t) ==
      (Play(hash, tool, g, events), IdempotencyConflict)
  {
    Holds(hash, tool, g, events);
    var w := Play(hash, tool, g, events);
    hide Play, StepOk, RowOk, ResolveExisting;
    if Taken(w) { RowNames(w.row.value, hash, tool, g, Last(w)); }
  }

  lemma SecondCall(w: World, hash: string, tool: string, t: Turn)
    requires Inv(w, hash, tool, t.g) && !t.busy && t.cut.Never? && Near(w, t.g)
    ensures Submit(w, hash, tool, t).1 == FinalResponse(t.g, w.decision)
  {
    hide StepOk, RowOk, FinalResponse, ToResponse, Mirror;
    RowNames(w.row.value, hash, tool, t.g, Last(w));
    CallKeeps(w, hash, tool, t);
    var v := Submit(w, hash, tool, t).0;
    if w.row.value.status.Awaiting? {
      ReconcileKeeps(w, hash, tool, t);
      ReconcileAnswers(w, t);
      hide Reconcile;
    }
    MirrorSays(v.row.value, hash, tool, t.g, Last(v), v.decision);
  }

  lemma ReconcileAnswers(w: World, t: Turn)
    requires w.row.Some? && t.cut.Never?
    ensures Reconcile(w, t).0.row.Some? && Reconcile(w, t).1 == ToResponse(Reconcile(w, t).0.row.value)
  {
    hide ToResponse, Reconciled, MatchingStep;
  }

  /** The answer is about the execution: its text goes with the status of the newest step, and one that waits
      names the approval it waits for. */
  ghost predicate TrueTo(res: Response, w: World, g: Gateway) {
    && |w.steps| > 0 && w.row.Some? && res.Answer?
    && (res.status == "EXECUTED" <==> Last(w).status.StepCompleted?)
    && (res.status == "REQUIRES_APPROVAL" <==> Last(w).status.StepWaiting?)
    && (res.status == "BLOCKED" <==> Last(w).status.StepBlocked?)
    && (res.status == "FAILED" <==> Last(w).status.StepFailed?)
    && res.code == (if Last(w).status.StepBlocked? then Some("ACTION_BLOCKED")
                    else if Last(w).status.StepFailed? then Some("TOOL_EXECUTION_FAILED") else None)
    && res.result == (if Last(w).status.StepCompleted? then Last(w).result else None)
    && res.approval == (if g.reply.Asks? then Some(g.reply.approval) else None)
    && w.row.value.toolRequest == Last(w).toolRequest
    && w.row.value.completedAt == (if Last(w).status.StepWaiting? then None else Some(Last(w).completedAt))
    && (w.row.value.status.Awaiting? ==>
          g.reply.Asks? && res == Answer("REQUIRES_APPROVAL", None, Some(g.reply.approval), None))
  }

  lemma RowTrue(row: Action, hash: string, tool: string, w: World, g: Gateway)
    requires |w.steps| > 0 && w.row == Some(row) && StepOk(Last(w), tool, g, w.decision)
    requires RowOk(row, hash, tool, g, Last(w)) && (IsTerminal(row.status) || row.status.Awaiting?)
    requires row.status.Awaiting? ==> Last(w).status.StepWaiting?
    ensures TrueTo(ToResponse(row), w, g)
    ensures ToResponse(row) == FinalResponse(g, if row.status.Awaiting? then Open else w.decision)
  {
  }

  /** Any call that is neither cut off nor turned away, after any run: the answer is true of the execution,
      and it is the final one unless the row has only now caught up with a step that waits. */
  lemma CallAnswers(hash: string, tool: string, g: Gateway, events: seq<Event>, at: int)
    ensures var w := Play(hash, tool, g, events);
      var (v, res) := Submit(w, hash, tool, Turn(g, false, Never, at));
      && TrueTo(res, v, g)
      && res == FinalResponse(g, if w.row == Some(Blank(hash, tool, Processing)) then Open else w.decision)
  {
    Holds(hash, tool, g, events);
    AnswersFrom(Play(hash, tool, g, events), hash, tool, Turn(g, false, Never, at));
    hide Play;
  }

  /** The first call, if it gets through, says what the gateway replied. */
  lemma FirstAnswers(hash: string, tool: string, g: Gateway, at: int)
    ensures Submit(World(None, [], Open, 0, 0), hash, tool, Turn(g, false, Never, at)).1 == FinalResponse(g, Open)
  {
    CallAnswers(hash, tool, g, [], at);
    assert Play(hash, tool, g, []) == World(None, [], Open, 0, 0);
    hide Submit, FinalResponse;
  }

  lemma AnswersFrom(w: World, hash: string, tool: string, t: Turn)
    requires Inv(w, hash, tool, t.g) && !t.busy && t.cut.Never?
    ensures var (v, res) := Submit(w, hash, tool, t);
      && TrueTo(res, v, t.g)
      && res == FinalResponse(t.g, if w.row == Some(Blank(hash, tool, Processing)) then Open else w.decision)
  {
    CallKeeps(w, hash, tool, t);
    CaughtUp(w, hash, tool, t);
    var v := Submit(w, hash, tool, t).0;
    hide Submit, StepOk, RowOk, TrueTo;
    RowTrue(v.row.value, hash, tool, v, t.g);
  }

  /** After such a call the row is terminal, or waits as the newest step does. */
  lemma CaughtUp(w: World, hash: string, tool: string, t: Turn)
    requires Inv(w, hash, tool, t.g) && !t.busy && t.cut.Never?
    ensures var (v, res) := Submit(w, hash, tool, t);
      && Taken(v) && v.row.Some? && res == ToResponse(v.row.value)
      && (IsTerminal(v.row.value.status) || v.row.value.status.Awaiting?)
      && (v.row.value.status.Awaiting? ==>
            Last(v).status.StepWaiting? && (w.row == Some(Blank(hash, tool, Processing)) || !Settled(w.decision)))
  {
    hide MatchingStep, Reconciled, StepOk, RowOk, Synced, NewSteps, ToResponse, Settle;
    if !Taken(w) {
      NoMatch(w.steps, tool);
      InvokeKeeps(w.(row := Some(Blank(hash, tool, Processing))), hash, tool, t);
      FirstWrite(w, hash, tool, t);
      NewStepsShape(tool, t.g, t.at);
    } else {
      RowNames(w.row.value, hash, tool, t.g, Last(w));
      if w.row.value.status.Awaiting? {
        AwaitingRow(w.row.value, hash, tool, t.g, Last(w));
        ReconcileCatchesUp(w, hash, tool, t);
      } else if !IsTerminal(w.row.value.status) {
        LastMatches(w.steps, tool, t.g, w.decision);
        SyncKeeps(w.row.value, hash, tool, t.g, Last(w), w.decision);
        LagsBlank(w.row.value, hash, tool, t.g, Last(w));
      }
    }
  }

  lemma LagsBlank(row: Action, hash: string, tool: string, g: Gateway, s: ActionStep)
    requires RowOk(row, hash, tool, g, s) && !IsTerminal(row.status) && !row.status.Awaiting?
    ensures row == Blank(hash, tool, Processing)
  {
  }

  lemma Unsettled(s: ActionStep, tool: string, g: Gateway, d: Decision, at: int)
    requires StepOk(s, tool, g, d) && g.reply.Asks? && !Settled(d)
    ensures s.status.StepWaiting? && Settle(s, d, at) == s
  {
  }

  lemma ReconcileCatchesUp(w: World, hash: string, tool: string, t: Turn)
    requires Inv(w, hash, tool, t.g) && Taken(w) && w.row.value.status.Awaiting? && t.cut.Never?
    ensures var (v, res) := Reconcile(w, t);
      && Taken(v) && v.row.Some? && res == ToResponse(v.row.value)
      && (if Settled(w.decision) then IsTerminal(v.row.value.status)
          else v.row.value.status.Awaiting? && |v.steps| > 0 && Last(v).status.StepWaiting?)
  {
    hide MatchingStep, Reconciled, StepOk, RowOk, Synced, Settle, ToResponse;
    ReconcileKeeps(w, hash, tool, t);
    AwaitingRow(w.row.value, hash, tool, t.g, Last(w));
    if !Settled(w.decision) {
      Unsettled(Last(w), tool, t.g, w.decision, t.at);
      ReconciledLast(w.steps, w.decision, t.at);
      assert w.steps[|w.steps| - 1 := Last(w)] == w.steps == Reconciled(w.steps, w.decision, t.at);
      LastMatches(w.steps, tool, t.g, w.decision);
      SyncKeeps(w.row.value, hash, tool, t.g, Last(w), w.decision);
    }
  }

  /** Two calls in a row that are neither cut off nor turned away give the final answer, once the
      submission has been decided. */
  lemma TwoCallsFinish(hash: string, tool: string, g: Gateway, events: seq<Event>, at: int, later: int)
    requires g.reply.Asks? ==> Settled(Play(hash, tool, g, events).decision)
    ensures var w := Submit(Play(hash, tool, g, events), hash, tool, Turn(g, false, Never, at)).0;
      Submit(w, hash, tool, Turn(g, false, Never, later)).1 == FinalResponse(g, w.decision)
  {
    var w := Play(hash, tool, g, events);
    Holds(hash, tool, g, events);
    hide *;
    CallKeeps(w, hash, tool, Turn(g, false, Never, at));
    SecondCall(Submit(w, hash, tool, Turn(g, false, Never, at)).0, hash, tool, Turn(g, false, Never, later));
  }
}
