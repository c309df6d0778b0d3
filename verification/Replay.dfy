/** The audit log replays to the execution's status, and terminal statuses are absorbing, exactly
    when no approval outcome is written over a cancellation. */
module Replay {
  import opened Base
  import opened Rows
  import opened Chunks
  import opened Protocol
  import Ap = Outstanding

  /** The status transition table: what an audit event says about the status. */
  function Next(st: ExecutionStatus, e: Event): ExecutionStatus {
    match e
    case ExecutionStarted => if st.Created? then Running else st
    case ApprovalRequested => if st.Running? then WaitingApproval else st
    case ApprovalRejected => if st.WaitingApproval? then Running else st
    case ApprovalExpired => if st.WaitingApproval? then Running else st
    case ActionExecuted => if st.WaitingApproval? then Running else st
    case ActionFailed => if st.WaitingApproval? then Running else st
    case ExecutionCancelled => if st.Running? || st.WaitingApproval? then Cancelled else st
    case ExecutionCompleted => if st.Running? then ExecutionStatus.Completed else st
    case ExecutionFailed => if st.Running? then ExecutionStatus.Failed else st
    case ExecutionBlocked => if st.Running? then ExecutionStatus.Blocked else st
    case _ => st
  }

  function Fold(log: seq<Event>): ExecutionStatus {
    if |log| == 0 then Created else Next(Fold(log[..|log| - 1]), log[|log| - 1])
  }

  predicate Neutral(e: Event) {
    !e.ExecutionStarted? && !e.ApprovalRequested? && !e.ApprovalRejected? && !e.ApprovalExpired? &&
    !e.ActionExecuted? && !e.ActionFailed? && !Ending(e)
  }

  predicate Ending(e: Event) {
    e.ExecutionCancelled? || e.ExecutionCompleted? || e.ExecutionFailed? || e.ExecutionBlocked?
  }

  /** How many events say that the execution ended. */
  function Endings(log: seq<Event>): nat {
    if |log| == 0 then 0 else Endings(log[..|log| - 1]) + if Ending(log[|log| - 1]) then 1 else 0
  }

  ghost predicate AllNeutral(events: seq<Event>) {
    forall i :: 0 <= i < |events| ==> Neutral(events[i])
  }

  lemma {:induction false} NeutralAppend(log: seq<Event>, events: seq<Event>)
    requires AllNeutral(events)
    ensures Fold(log + events) == Fold(log) && Endings(log + events) == Endings(log)
  {
    if |events| == 0 {
      assert log + events == log;
    } else {
      var n := |events| - 1;
      assert (log + events)[..|log| + n] == log + events[..n];
      NeutralAppend(log, events[..n]);
    }
  }

  lemma OneAppend(log: seq<Event>, e: Event)
    ensures Fold(log + [e]) == Next(Fold(log), e)
    ensures Endings(log + [e]) == Endings(log) + if Ending(e) then 1 else 0
  {
    assert (log + [e])[..|log|] == log;
  }

  // ---------------------------------------------------------------- the property

  ghost predicate CancelPending(s: State) {
    exists x :: x in s.callers && s.callers[x].CxLog?
  }

  /** The log replays to the status.  While a committed cancellation has not written its event yet,
      the status is CANCELLED and the log replays to a status that could be cancelled.  Either way the
      log has one ending event if it has ended, and none if it has not. */
  ghost predicate ReplayOk(s: State) {
    && (if CancelPending(s) then s.rows.status.Cancelled? && Live(Fold(s.rows.log))
        else Fold(s.rows.log) == s.rows.status)
    && Endings(s.rows.log) == (if Terminal(Fold(s.rows.log)) then 1 else 0)
    && (forall x, y :: x in s.callers && y in s.callers && s.callers[x].CxLog? && s.callers[y].CxLog? ==> x == y)
  }

  predicate Live(st: ExecutionStatus) {
    st.Running? || st.WaitingApproval?
  }

  /** The outcome of an approval is committed while the execution is CANCELLED: the commit writes
      RUNNING without looking (for an expiry: it looked before the cancellation). */
  predicate WritesOverCancel(s: State, x: nat, c: Choice) {
    && c.Go? && x in s.callers && s.rows.status.Cancelled?
    && var pc := s.callers[x];
       (pc.ApReject? || pc.ApOutcome? || (pc.ApExpireCommit? && pc.sawWaiting && !c.o.collided))
  }

  // ---------------------------------------------------------------- one transition

  /** From `d` to `e` the log grows by neutral events and at most one more, which tells of the
      change of status. */
  ghost predicate Told(d: Rows, e: Rows) {
    && d.log <= e.log
    && var chunk := e.log[|d.log|..];
       if AllNeutral(chunk) then e.status == d.status
       else AllNeutral(chunk[..|chunk| - 1]) && ToldBy(d.status, chunk[|chunk| - 1], e.status)
  }

  predicate ToldBy(before: ExecutionStatus, e: Event, after: ExecutionStatus) {
    && after == Next(before, e)
    && (Ending(e) ==> before.Running?)
    && (before.Cancelled? ==> e.ApprovalExpired? || e.ExecutionStarted?)
  }

  lemma ToldNothing(d: Rows, e: Rows)
    requires e.log == d.log && e.status == d.status
    ensures Told(d, e)
  {
  }

  lemma ToldNeutral(d: Rows, e: Rows, events: seq<Event>)
    requires e.log == d.log + events && AllNeutral(events) && e.status == d.status
    ensures Told(d, e)
  {
    assert e.log[|d.log|..] == events;
  }

  lemma ToldEvent(d: Rows, e: Rows, before: seq<Event>, x: Event)
    requires e.log == d.log + (before + [x]) && AllNeutral(before) && !Neutral(x) && ToldBy(d.status, x, e.status)
    ensures Told(d, e)
  {
    assert e.log[|d.log|..] == before + [x];
    assert (before + [x])[|before|] == x;
    assert (before + [x])[..|before|] == before;
  }

  lemma FinalizeTold(d: Rows, k: nat, st: StepStatus, t: ExecutionStatus)
    requires k < |d.steps| && (t.Completed? || t.Failed? || t.Blocked?)
    ensures Told(d, FinalizeExecution(d, k, st, t))
  {
    hide Told;
    var e := FinalizeExecution(d, k, st, t);
    if d.status.Running? {
      ToldEvent(d, e, [], TerminalEvent(t));
    } else {
      ToldNeutral(d, e, [StatusAlreadyTerminal]);
    }
  }

  lemma RuntimeTold(w: World, d: Rows, p: Pc, o: Oracle)
    requires IsRuntime(p)
    ensures Told(d, GoRuntime(w, d, p, o).rows) && !GoRuntime(w, d, p, o).pc.CxLog?
  {
    hide Told, AllNeutral, FinalizeExecution;
    var e := GoRuntime(w, d, p, o).rows;
    if p.ResolveCommit? && p.step < |d.steps| {
      if p.verdict.VExecuted? { ToldOne(d, e, StepFinished); } else {
        FinalizeTold(d, p.step, StepBlocked, ExecutionStatus.Blocked);
        FinalizeTold(d, p.step, StepFailed, ExecutionStatus.Failed);
      }
    } else if p.Finalizing? && p.job.step < |d.steps| {
      FinalizingTold(w, d, p);
    } else if p.GivingUp? && p.job.step < |d.steps| {
      FinalizeTold(d, p.job.step, StepFailed, ExecutionStatus.Failed);
    } else if p.Closing? && p.step < |d.steps| {
      FinalizeTold(d, p.step, StepCompleted, ExecutionStatus.Completed);
      FinalizeTold(d, p.step, StepFailed, ExecutionStatus.Failed);
    } else if p.Resuming? {
      ToldOne(d, e, ExecutionResumed);
    } else if p.Announcing? {
      ToldOne(d, e, StepStarted);
    } else {
      ToldNothing(d, e);
    }
  }

  lemma ToldOne(d: Rows, e: Rows, x: Event)
    requires e.log == d.log + [x] && Neutral(x) && e.status == d.status
    ensures Told(d, e)
  {
    ToldNeutral(d, e, [x]);
  }

  lemma FinalizingTold(w: World, d: Rows, p: Pc)
    requires p.Finalizing? && p.job.step < |d.steps|
    ensures Told(d, GoFinalizing(w, d, p.since, p.job, p.result).rows)
  {
    hide Told, AllNeutral, FinalizeExecution;
    var e := GoFinalizing(w, d, p.since, p.job, p.result).rows;
    match p.result
    case ResExecuted(_) => ToldOne(d, e, StepFinished);
    case ResApproval(_) => ToldOne(d, e, ExecutionWaiting);
    case ResBlocked => FinalizeTold(d, p.job.step, StepBlocked, ExecutionStatus.Blocked);
    case ResFailed =>
      if Retries(w, p.job) { ToldNothing(d, e); }
      else { FinalizeTold(d, p.job.step, StepFailed, ExecutionStatus.Failed); }
  }

  lemma NeutralChunks(matched: bool, action: PolicyAction, signals: nat, escalated: bool, incident: bool)
    ensures AllNeutral(PolicyChunk(matched, action)) && AllNeutral(RiskChunk(signals))
    ensures AllNeutral(RiskBlockChunk(escalated, incident))
    ensures AllNeutral(if escalated then [RiskEscalated] else [])
  {
  }

  lemma CheckTold(d: Rows, since: int, job: Job, o: Oracle)
    ensures Told(d, GoGwCheck(d, since, job, o).rows) && !GoGwCheck(d, since, job, o).pc.CxLog?
  {
    hide Told;
    var e := GoGwCheck(d, since, job, o).rows;
    if !o.registered || !o.valid {
      ToldNeutral(d, e, [ToolFailed]);
    } else if o.permission.PermitAllow? {
      ToldNeutral(d, e, [PermissionChecked]);
    } else if o.permission.PermitDeny? {
      ToldNeutral(d, e, [PermissionChecked, ActionDenied]);
    } else {
      ToldNeutral(d, e, [PermissionChecked, PolicyEvaluationStarted]);
    }
  }

  lemma GatewayTold(w: World, d: Rows, p: Pc, o: Oracle)
    requires p.Gateway?
    ensures var out := GoGateway(w, d, p.since, p.job, p.at, o);
      Told(d, out.rows) && !out.pc.CxLog?
  {
    hide Told, AllNeutral, PolicyChunk, RiskChunk, RiskBlockChunk, GoGwCheck;
    var e := GoGateway(w, d, p.since, p.job, p.at, o).rows;
    if p.at.GwCheck? {
      CheckTold(d, p.since, p.job, o);
    } else if p.at.GwPolicy? && p.at.request < |d.requests| {
      NeutralChunks(o.matched, o.policy, 0, false, false);
      ToldNeutral(d, e, PolicyChunk(o.matched, o.policy));
    } else if p.at.GwRisk? && p.at.request < |d.requests| {
      NeutralChunks(o.matched, o.policy, o.signals, false, false);
      ToldNeutral(d, e, RiskChunk(o.signals));
    } else if p.at.GwBlock? && p.at.request < |d.requests| {
      NeutralChunks(o.matched, o.policy, 0, p.at.escalated, p.at.incident);
      ToldNeutral(d, e, RiskBlockChunk(p.at.escalated, p.at.incident));
    } else if p.at.GwApprove? && p.at.request < |d.requests| && o.now <= w.clock && d.status.Running? {
      NeutralChunks(o.matched, o.policy, 0, p.at.escalated, false);
      ToldEvent(d, e, if p.at.escalated then [RiskEscalated] else [], ApprovalRequested);
    } else if p.at.GwRequested? {
      ToldOne(d, e, ToolRequested);
    } else if p.at.GwAllow? {
      ToldOne(d, e, ActionAllowed);
    } else if p.at.GwRecord? && p.at.request < |d.requests| {
      ToldOne(d, e, if p.at.success then ToolExecuted else ToolFailed);
    } else {
      ToldNothing(d, e);
    }
  }

  lemma OutcomeTold(d: Rows, e: Rows, x: Event, a: nat)
    requires Ap.RowsOk(d) && d.Outstanding(a)
    requires x.ApprovalRejected? || x.ActionExecuted? || x.ActionFailed? || x.ApprovalExpired?
    requires e.log == d.log + [x] &&
      (e.status.Running? || (x.ApprovalExpired? && d.status.Cancelled? && e.status == d.status))
    requires d.status.Cancelled? ==> !e.status.Running?
    ensures Told(d, e)
  {
    hide Told;
    Ap.OpenStatus(d, a);
    hide Ap.RowsOk;
    ToldEvent(d, e, [], x);
  }

  lemma ApprovalTold(w: World, d: Rows, p: Pc, o: Oracle)
    requires IsApproval(p) && Ap.RowsOk(d) && Ap.PcOk(d, p)
    requires d.status.Cancelled? ==>
      !(p.ApReject? || p.ApOutcome? || (p.ApExpireCommit? && p.sawWaiting && !o.collided))
    ensures var out := GoApproval(w, d, p, o);
      Told(d, out.rows) && !out.pc.CxLog?
  {
    hide Told, Ap.RowsOk;
    var e := GoApproval(w, d, p, o).rows;
    if p.approval < |d.approvals| { Ap.InRange(d, p.approval); }
    if p.ApReject? || p.ApOutcome? || (p.ApExpireCommit? && !o.collided) {
      OutcomeTold(d, e, e.log[|d.log|], p.approval);
    } else if p.ApLogApproved? {
      ToldOne(d, e, ApprovalApproved);
    } else if p.ApLogStarted? {
      ToldOne(d, e, ActionExecutionStarted);
    } else {
      ToldNothing(d, e);
    }
  }

  /** Every transition tells of its change of status, except a cancellation's two commits and an
      outcome written over a cancellation. */
  lemma LocalTold(w: World, d: Rows, p: Pc, o: Oracle)
    requires Ap.RowsOk(d) && Ap.PcOk(d, p) && !p.CxEnter? && !p.CxLog?
    requires d.status.Cancelled? ==>
      !(p.ApReject? || p.ApOutcome? || (p.ApExpireCommit? && p.sawWaiting && !o.collided))
    ensures var out := GoLocal(w, d, p, o);
      Told(d, out.rows) && !out.pc.CxLog?
  {
    hide Told, Ap.RowsOk, GoGateway, GoApproval, GoRuntime;
    if p.Gateway? {
      GatewayTold(w, d, p, o);
    } else if IsApproval(p) {
      ApprovalTold(w, d, p, o);
    } else if p.Starting? {
      StartTold(d);
    } else if p.Gone? {
      ToldNothing(d, GoOther(d, p).rows);
    } else {
      RuntimeTold(w, d, p, o);
    }
  }

  lemma StartTold(d: Rows)
    ensures Told(d, StartExecution(d))
  {
    hide Told;
    ToldEvent(d, StartExecution(d), [], ExecutionStarted);
  }

  /** What a told change does to the replay of the log. */
  lemma ToldFold(d: Rows, e: Rows)
    requires Told(d, e)
    ensures
      || (Fold(e.log) == Fold(d.log) && Endings(e.log) == Endings(d.log) && e.status == d.status)
      || (exists x :: !Neutral(x) && ToldBy(d.status, x, e.status) && Fold(e.log) == Next(Fold(d.log), x) &&
            Endings(e.log) == Endings(d.log) + if Ending(x) then 1 else 0)
  {
    var log, chunk := d.log, e.log[|d.log|..];
    assert e.log == log + chunk;
    if AllNeutral(chunk) {
      NeutralAppend(log, chunk);
    } else {
      var n := |chunk| - 1;
      NeutralAppend(log, chunk[..n]);
      OneAppend(log + chunk[..n], chunk[n]);
      assert log + chunk == (log + chunk[..n]) + [chunk[n]];
      assert !Neutral(chunk[n]);
    }
  }

  lemma SamePending(s: State, x: nat, t: State)
    requires t.callers == s.callers ||
      (x in t.callers && t.callers == s.callers[x := t.callers[x]] && !t.callers[x].CxLog?)
    requires x in s.callers && t.callers != s.callers ==> !s.callers[x].CxLog?
    ensures CancelPending(t) == CancelPending(s)
    ensures forall y :: y in t.callers && t.callers[y].CxLog? ==> y in s.callers && s.callers[y].CxLog?
  {
    if CancelPending(s) {
      var y :| y in s.callers && s.callers[y].CxLog?;
      assert y in t.callers && t.callers[y].CxLog?;
    }
  }

  /** A told change keeps the replay. */
  lemma ToldKeeps(s: State, x: nat, t: State)
    requires ReplayOk(s) && Told(s.rows, t.rows)
    requires t.callers == s.callers ||
      (x in t.callers && t.callers == s.callers[x := t.callers[x]] && !t.callers[x].CxLog?)
    requires x in s.callers && t.callers != s.callers ==> !s.callers[x].CxLog?
    ensures ReplayOk(t)
  {
    ToldFold(s.rows, t.rows);
    hide Told, Fold, Endings;
    SamePending(s, x, t);
    hide CancelPending;
  }

  // ---------------------------------------------------------------- cancellation

  lemma CancelKeeps(s: State, x: nat, o: Oracle)
    requires ReplayOk(s) && x in s.callers && s.callers[x].CxEnter?
    ensures ReplayOk(Apply(s, x, Go(o)))
  {
    var t := Apply(s, x, Go(o));
    if Cancellable(s.rows) {
      assert x in t.callers && t.callers[x].CxLog?;
      assert !CancelPending(s);
      assert forall y :: y in t.callers && t.callers[y].CxLog? ==> y == x || (y in s.callers && s.callers[y].CxLog?);
    } else {
      SamePending(s, x, t);
    }
  }

  lemma CancelLogKeeps(s: State, x: nat, o: Oracle)
    requires ReplayOk(s) && x in s.callers && s.callers[x].CxLog?
    ensures ReplayOk(Apply(s, x, Go(o)))
  {
    var t := Apply(s, x, Go(o));
    OneAppend(s.rows.log, ExecutionCancelled);
    assert CancelPending(s);
    assert forall y :: y in t.callers && t.callers[y].CxLog? ==> y != x && y in s.callers && s.callers[y].CxLog?;
  }

  // ---------------------------------------------------------------- exactly when

  /** `cancel` raised between its two commits: its event never comes. */
  predicate AbortsCancel(s: State, x: nat, c: Choice) {
    c.Abort? && x in s.callers && s.callers[x].CxLog?
  }

  lemma StepKeeps(s: State, x: nat, c: Choice)
    requires Ap.Inv(s) && ReplayOk(s) && !WritesOverCancel(s, x, c) && !AbortsCancel(s, x, c)
    ensures ReplayOk(Apply(s, x, c))
  {
    hide ReplayOk, Ap.Inv, GoLocal;
    var t := Apply(s, x, c);
    if c.Go? && x in s.callers {
      Ap.CallerOk(s, x);
      if s.callers[x].CxEnter? {
        CancelKeeps(s, x, c.o);
      } else if s.callers[x].CxLog? {
        CancelLogKeeps(s, x, c.o);
      } else {
        LocalTold(World(s.cfg, s.clock, x), s.rows, s.callers[x], c.o);
        ToldKeeps(s, x, t);
      }
    } else if c.Note? && NoteAllowed(c.event) {
      ToldOne(s.rows, t.rows, c.event);
      ToldKeeps(s, x, t);
    } else {
      ToldNothing(s.rows, t.rows);
      ToldKeeps(s, x, t);
    }
  }

  lemma OverwriteShape(s: State, x: nat, o: Oracle)
    requires Ap.Inv(s) && WritesOverCancel(s, x, Go(o))
    ensures var t := Apply(s, x, Go(o));
      && t.rows.status.Running?
      && (exists e :: !Ending(e) && t.rows.log == s.rows.log + [e] && Next(Cancelled, e) == Cancelled)
  {
    Ap.CallerOk(s, x);
    hide Ap.Inv;
    var pc := s.callers[x];
    Ap.InRange(s.rows, pc.approval);
    hide Ap.RowsOk;
    var t := Apply(s, x, Go(o));
    var e := if pc.ApReject? then ApprovalRejected
             else if pc.ApExpireCommit? then ApprovalExpired
             else if pc.success then ActionExecuted else ActionFailed;
    assert t.rows.log == s.rows.log + [e];
  }

  lemma StepBreaks(s: State, x: nat, c: Choice)
    requires Ap.Inv(s) && ReplayOk(s) && (WritesOverCancel(s, x, c) || AbortsCancel(s, x, c))
    ensures !ReplayOk(Apply(s, x, c))
  {
    var t := Apply(s, x, c);
    if WritesOverCancel(s, x, c) {
      OverwriteShape(s, x, c.o);
      var e :| !Ending(e) && t.rows.log == s.rows.log + [e] && Next(Cancelled, e) == Cancelled;
      OneAppend(s.rows.log, e);
      hide Apply, Ap.Inv, WritesOverCancel, Fold;
      if !CancelPending(t) { PendingStays(s, x, c, t); }
    } else {
      assert CancelPending(s);
    }
  }

  lemma PendingStays(s: State, x: nat, c: Choice, t: State)
    requires t == Apply(s, x, c) && WritesOverCancel(s, x, c)
    ensures CancelPending(s) ==> CancelPending(t)
  {
    hide GoLocal;
    if CancelPending(s) {
      var y :| y in s.callers && s.callers[y].CxLog?;
      assert y in t.callers && t.callers[y].CxLog?;
    }
  }

  /** Which transition of a reachable state makes it end differently, or run again: exactly the
      outcome of an approval committed over a cancellation. */
  lemma TerminalLeftExactly(cfg: Config, schedule: seq<Turn>, x: nat, c: Choice)
    ensures var s := Run(Init(cfg), schedule);
      Terminal(s.rows.status) && Apply(s, x, c).rows.status != s.rows.status <==> WritesOverCancel(s, x, c)
  {
    Ap.Holds(cfg, schedule);
    TerminalLeft(Run(Init(cfg), schedule), x, c);
  }

  lemma TerminalLeft(s: State, x: nat, c: Choice)
    requires Ap.Inv(s)
    ensures Terminal(s.rows.status) && Apply(s, x, c).rows.status != s.rows.status <==> WritesOverCancel(s, x, c)
  {
    hide Ap.Inv, GoLocal, Fold;
    if c.Go? && x in s.callers {
      var pc := s.callers[x];
      if WritesOverCancel(s, x, c) {
        OverwriteShape(s, x, c.o);
      } else if pc.CxEnter? || pc.CxLog? {
        CancelStatus(s.rows, pc);
      } else {
        Ap.CallerOk(s, x);
        LocalTold(World(s.cfg, s.clock, x), s.rows, pc, c.o);
        hide Apply;
        ToldTerminal(s.rows, GoLocal(World(s.cfg, s.clock, x), s.rows, pc, c.o).rows);
      }
    }
  }

  lemma CancelStatus(d: Rows, pc: Pc)
    requires pc.CxEnter? || pc.CxLog?
    ensures forall w, o :: Terminal(d.status) ==> GoLocal(w, d, pc, o).rows.status == d.status
  {
  }

  lemma ToldTerminal(d: Rows, e: Rows)
    requires Told(d, e)
    ensures Terminal(d.status) ==> e.status == d.status
  {
  }

  ghost predicate NeverBroken(cfg: Config, schedule: seq<Turn>) {
    forall i :: 0 <= i < |schedule| ==> !Breaks(Run(Init(cfg), schedule[..i]), schedule[i])
  }

  predicate Breaks(s: State, t: Turn) {
    WritesOverCancel(s, t.who, t.choice) || AbortsCancel(s, t.who, t.choice)
  }

  ghost predicate AlwaysReplays(cfg: Config, schedule: seq<Turn>) {
    forall i :: 0 <= i <= |schedule| ==> ReplayOk(Run(Init(cfg), schedule[..i]))
  }

  lemma Prefix(cfg: Config, schedule: seq<Turn>, i: nat)
    requires i < |schedule|
    ensures Run(Init(cfg), schedule[..i + 1]) ==
      Apply(Run(Init(cfg), schedule[..i]), schedule[i].who, schedule[i].choice)
  {
    assert schedule[..i + 1][..i] == schedule[..i];
  }

  lemma {:induction false} ReplaysUpTo(cfg: Config, schedule: seq<Turn>, n: nat)
    requires NeverBroken(cfg, schedule) && n <= |schedule|
    ensures ReplayOk(Run(Init(cfg), schedule[..n]))
  {
    if n == 0 {
      InitReplays(cfg);
      assert schedule[..0] == [];
    } else {
      ReplaysUpTo(cfg, schedule, n - 1);
      Prefix(cfg, schedule, n - 1);
      Ap.Holds(cfg, schedule[..n - 1]);
      hide Run, Apply;
      var t := schedule[n - 1];
      assert !Breaks(Run(Init(cfg), schedule[..n - 1]), t);
      StepKeeps(Run(Init(cfg), schedule[..n - 1]), t.who, t.choice);
    }
  }

  lemma InitReplays(cfg: Config)
    ensures ReplayOk(Run(Init(cfg), []))
  {
  }

  /** At every moment of a run the audit log replays to the status, if and only if no outcome is
      written over a cancellation and no `cancel` raises between its commits. */
  lemma ReplayExactly(cfg: Config, schedule: seq<Turn>)
    ensures AlwaysReplays(cfg, schedule) <==> NeverBroken(cfg, schedule)
  {
    if NeverBroken(cfg, schedule) {
      forall i | 0 <= i <= |schedule| ensures ReplayOk(Run(Init(cfg), schedule[..i])) { ReplaysUpTo(cfg, schedule, i); }
    }
    if AlwaysReplays(cfg, schedule) {
      forall i | 0 <= i < |schedule| ensures !Breaks(Run(Init(cfg), schedule[..i]), schedule[i]) {
        assert ReplayOk(Run(Init(cfg), schedule[..i])) && ReplayOk(Run(Init(cfg), schedule[..i + 1]));
        Prefix(cfg, schedule, i);
        Ap.Holds(cfg, schedule[..i]);
        hide Run, Apply, Breaks, ReplayOk;
        NotBroken(Run(Init(cfg), schedule[..i]), schedule[i]);
      }
    }
  }

  lemma NotBroken(s: State, t: Turn)
    requires Ap.Inv(s) && ReplayOk(s) && ReplayOk(Apply(s, t.who, t.choice))
    ensures !Breaks(s, t)
  {
    hide Apply, ReplayOk, Ap.Inv, WritesOverCancel, AbortsCancel;
    if Breaks(s, t) { StepBreaks(s, t.who, t.choice); }
  }

}
