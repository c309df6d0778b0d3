/** Step sequences are 1..n in every run.  When sections act only while their lease is fresh, the
    sequence race of `_claim_step` is never lost and the number of steps is bounded. */
module StepBound {
  import opened Base
  import opened Rows
  import opened Protocol
  import Ap = Outstanding
  import Le = Leases
  import Ver = Verdicts

  // ---------------------------------------------------------------- sequences, in every run

  ghost predicate Numbered(steps: seq<Step>) {
    forall i :: 0 <= i < |steps| ==> steps[i].sequence == i + 1
  }

  lemma {:induction false} MaxIsLength(steps: seq<Step>)
    requires Numbered(steps)
    ensures MaxSequence(steps) == |steps|
  {
    if |steps| > 0 { MaxIsLength(steps[..|steps| - 1]); }
  }

  lemma FreeIsNext(steps: seq<Step>, q: nat)
    requires Numbered(steps) && 1 <= q <= |steps| + 1
    ensures SequenceFree(steps, q) <==> q == |steps| + 1
  {
    if q <= |steps| { assert steps[q - 1].sequence == q; }
  }

  predicate PcNumbered(d: Rows, pc: Pc) {
    pc.Inserting? || pc.RetryInserting? ==> 1 <= pc.next <= |d.steps| + 1
  }

  ghost predicate NumInv(s: State) {
    && Numbered(s.rows.steps)
    && (forall x :: x in s.callers ==> PcNumbered(s.rows, s.callers[x]))
  }

  ghost predicate NumLocal(d: Rows, out: Out) {
    Numbered(out.rows.steps) && |d.steps| <= |out.rows.steps| && PcNumbered(out.rows, out.pc)
  }

  lemma RuntimeNumbered(w: World, d: Rows, p: Pc, o: Oracle)
    requires IsRuntime(p) && Numbered(d.steps) && PcNumbered(d, p)
    ensures NumLocal(d, GoRuntime(w, d, p, o))
  {
    hide MaxSequence, SequenceFree, VerdictOf, LastWaiting;
    MaxIsLength(d.steps);
    if p.Inserting? || p.RetryInserting? { FreeIsNext(d.steps, p.next); }
  }

  lemma GatewaySteps(w: World, d: Rows, p: Pc, o: Oracle)
    requires p.Gateway?
    ensures var out := GoGateway(w, d, p.since, p.job, p.at, o);
      && out.rows.steps == d.steps
      && (out.pc.Gateway? || out.pc.Finalizing?) && out.pc.job == p.job && out.pc.since == p.since
  {
  }

  lemma ApprovalSteps(w: World, d: Rows, p: Pc, o: Oracle)
    requires IsApproval(p)
    ensures var out := GoApproval(w, d, p, o);
      out.rows.steps == d.steps && (IsApproval(out.pc) || out.pc.Gone?)
  {
  }

  lemma LocalNumbered(w: World, d: Rows, p: Pc, o: Oracle)
    requires Numbered(d.steps) && PcNumbered(d, p)
    ensures NumLocal(d, GoLocal(w, d, p, o))
  {
    hide GoGateway, GoApproval, GoRuntime;
    if p.Gateway? {
      GatewaySteps(w, d, p, o);
    } else if IsApproval(p) {
      ApprovalSteps(w, d, p, o);
    } else if !IsOther(p) {
      RuntimeNumbered(w, d, p, o);
    }
  }

  lemma NumKeeps(s: State, x: nat, c: Choice)
    requires NumInv(s)
    ensures NumInv(Apply(s, x, c))
  {
    hide GoLocal;
    if c.Go? && x in s.callers { LocalNumbered(World(s.cfg, s.clock, x), s.rows, s.callers[x], c.o); }
  }

  lemma {:induction false} NumHolds(cfg: Config, schedule: seq<Turn>)
    ensures NumInv(Run(Init(cfg), schedule))
  {
    if |schedule| > 0 {
      var t := schedule[|schedule| - 1];
      NumHolds(cfg, schedule[..|schedule| - 1]);
      NumKeeps(Run(Init(cfg), schedule[..|schedule| - 1]), t.who, t.choice);
    }
  }

  /** Whatever callers do, overrunning their leases included: the sequences are exactly 1..n. */
  lemma SequencesContiguous(cfg: Config, schedule: seq<Turn>)
    ensures Numbered(Run(Init(cfg), schedule).rows.steps)
  {
    NumHolds(cfg, schedule);
  }

  // ---------------------------------------------------------------- the lease holder

  ghost predicate NoneOpen(d: Rows) {
    forall r :: 0 <= r < |d.requests| ==> !d.requests[r].status.RequiresApproval?
  }

  /** The execution has started and waits for nothing. */
  ghost predicate Free(d: Rows) {
    NoneOpen(d) && !d.status.Created?
  }

  predicate PlanFits(cfg: Config, plan: Plan, seen: nat) {
    plan.DoMaxSteps? <==> seen >= cfg.maxSteps
  }

  /** A holder's tool call: room was left for one retry. */
  predicate JobFits(cfg: Config, d: Rows, job: Job) {
    |d.steps| <= if job.mayRetry then cfg.maxSteps else cfg.maxSteps + 1
  }

  ghost predicate HolderOk(cfg: Config, d: Rows, pc: Pc) {
    match pc
    case Resolving(role, _) => role.Resumer? ==> Free(d)
    case ResolveCommit(role, _, _, _) => role.Resumer? ==> Free(d)
    case Resuming(role, _, _) => role.Resumer? ==> Free(d)
    case Loading(_, _) => Free(d)
    case Deciding(_, _, seen) => Free(d) && |d.steps| == seen
    case ReadingMax(_, plan, seen) => Free(d) && |d.steps| == seen && PlanFits(cfg, plan, seen)
    case Inserting(_, plan, seen, next) => Free(d) && |d.steps| == seen && PlanFits(cfg, plan, seen) && next == seen + 1
    case Announcing(_, job) => JobFits(cfg, d, job)
    case Gateway(_, job, _) => JobFits(cfg, d, job)
    case Finalizing(_, job, _) => JobFits(cfg, d, job)
    case RetryReadingMax(_, job) => job.mayRetry && JobFits(cfg, d, job)
    case RetryInserting(_, job, next) => job.mayRetry && JobFits(cfg, d, job) && next == |d.steps| + 1
    case GivingUp(_, _) => false
    case Closing(_, k, plan) => Free(d) && k < |d.steps| && (d.steps[k].kind.MaxStepsStep? <==> plan.DoMaxSteps?)
    case _ => true
  }

  /** The step bound has been enforced and recorded. */
  ghost predicate Capped(d: Rows) {
    exists k :: 0 <= k < |d.steps| && d.steps[k].kind.MaxStepsStep? && d.steps[k].status.StepFailed?
  }

  ghost predicate Dead(d: Rows) {
    Terminal(d.status) && NoneOpen(d)
  }

  /** A section that inserts no step from here, unless the status is RUNNING. */
  predicate Harmless(pc: Pc) {
    pc.Checking? || ((pc.Resolving? || pc.ResolveCommit? || pc.Resuming?) && pc.role.Reconciler?)
  }

  predicate ClosingMax(pc: Pc) {
    pc.Closing? && pc.plan.DoMaxSteps?
  }

  ghost function Extra(d: Rows, pc: Pc): nat {
    if Capped(d) || ClosingMax(pc) then 1 else 0
  }

  ghost predicate SectionOk(cfg: Config, d: Rows, pc: Pc, aborted: nat) {
    && (InSection(pc) ==> HolderOk(cfg, d, pc))
    && (Capped(d) ==> Dead(d) && (InSection(pc) ==> Harmless(pc)))
    && |d.steps| <= cfg.maxSteps + 1 + aborted + Extra(d, pc)
  }

  // ---------------------------------------------------------------- the holder acts

  lemma CappedStays(d: Rows, e: Rows)
    requires e.steps == d.steps
    ensures Capped(e) == Capped(d)
  {
  }

  /** One step written, not the one that enforces the bound. */
  lemma CappedWrite(d: Rows, e: Rows, k: nat)
    requires k < |d.steps| && |e.steps| == |d.steps| && Ver.OnlyStep(d, e, k)
    requires !d.steps[k].kind.MaxStepsStep? && e.steps[k].kind == d.steps[k].kind
    ensures Capped(e) == Capped(d)
  {
    if Capped(d) {
      var i :| 0 <= i < |d.steps| && d.steps[i].kind.MaxStepsStep? && d.steps[i].status.StepFailed?;
      assert e.steps[i] == d.steps[i];
    }
  }

  lemma CappedInsert(d: Rows, q: nat, kind: StepKind)
    ensures Capped(InsertStep(d, q, kind)) == Capped(d)
  {
    var e := InsertStep(d, q, kind);
    if Capped(d) {
      var i :| 0 <= i < |d.steps| && d.steps[i].kind.MaxStepsStep? && d.steps[i].status.StepFailed?;
      assert e.steps[i] == d.steps[i];
    }
  }

  lemma FreeRunning(d: Rows)
    requires Ap.RowsOk(d) && d.status.Running?
    ensures Free(d)
  {
  }

  /** Enforcing the bound ends the execution for good. */
  lemma ClosingKills(d: Rows, k: nat)
    requires Ap.RowsOk(d) && Free(d) && k < |d.steps|
    ensures Dead(FinalizeExecution(d, k, StepFailed, ExecutionStatus.Failed))
  {
  }

  /** A section's transition that changes neither steps nor requests. */
  lemma QuietHolder(cfg: Config, d: Rows, p: Pc, e: Rows, q: Pc, aborted: nat)
    requires InSection(p) && SectionOk(cfg, d, p, aborted)
    requires e.steps == d.steps && e.requests == d.requests && e.status == d.status
    requires InSection(q) ==> HolderOk(cfg, d, q)
    requires Harmless(p) && InSection(q) && Capped(d) ==> Harmless(q)
    requires ClosingMax(p) == ClosingMax(q)
    ensures SectionOk(cfg, e, q, aborted)
  {
    CappedStays(d, e);
  }

  lemma GatewayHolder(w: World, d: Rows, p: Pc, o: Oracle, aborted: nat)
    requires p.Gateway? && SectionOk(w.cfg, d, p, aborted)
    ensures var out := GoGateway(w, d, p.since, p.job, p.at, o);
      SectionOk(w.cfg, out.rows, out.pc, aborted)
  {
    GatewaySteps(w, d, p, o);
    hide GoGateway;
    CappedStays(d, GoGateway(w, d, p.since, p.job, p.at, o).rows);
  }

  predicate Writes(p: Pc) {
    p.ResolveCommit? || p.Finalizing? || p.Closing? || p.Inserting? || p.RetryInserting?
  }

  lemma QuietSection(w: World, d: Rows, p: Pc, o: Oracle, aborted: nat)
    requires InSection(p) && !p.Gateway? && !Writes(p) && SectionOk(w.cfg, d, p, aborted)
    requires Ap.RowsOk(d) && Numbered(d.steps)
    ensures var out := GoRuntime(w, d, p, o);
      SectionOk(w.cfg, out.rows, out.pc, aborted)
  {
    hide SectionOk, Ap.RowsOk, Numbered, MaxSequence, Capped, NoneOpen, VerdictOf, LastWaiting;
    NotGivingUp(w.cfg, d, p, aborted);
    MaxIsLength(d.steps);
    if d.status.Running? { FreeRunning(d); }
    CappedStatus(w.cfg, d, p, aborted);
    var out := GoRuntime(w, d, p, o);
    QuietHolder(w.cfg, d, p, out.rows, out.pc, aborted);
  }

  lemma NotGivingUp(cfg: Config, d: Rows, p: Pc, aborted: nat)
    requires InSection(p) && SectionOk(cfg, d, p, aborted)
    ensures !p.GivingUp? && HolderOk(cfg, d, p)
  {
  }

  lemma CappedStatus(cfg: Config, d: Rows, p: Pc, aborted: nat)
    requires SectionOk(cfg, d, p, aborted)
    ensures Capped(d) ==> Terminal(d.status) && (InSection(p) ==> Harmless(p))
  {
  }

  lemma InsertHolder(w: World, d: Rows, p: Pc, o: Oracle, aborted: nat)
    requires (p.Inserting? || p.RetryInserting?) && SectionOk(w.cfg, d, p, aborted) && Numbered(d.steps)
    ensures var out := GoRuntime(w, d, p, o);
      SectionOk(w.cfg, out.rows, out.pc, aborted)
  {
    FreeIsNext(d.steps, p.next);
    hide Numbered, SequenceFree, Capped;
    CappedInsert(d, p.next, if p.Inserting? then PlanKind(p.plan) else ToolCall(p.job.call));
  }

  lemma WriteHolder(w: World, d: Rows, p: Pc, o: Oracle, aborted: nat)
    requires (p.ResolveCommit? || p.Finalizing?) && SectionOk(w.cfg, d, p, aborted) && Ver.PcSteps(d, p)
    ensures var out := GoRuntime(w, d, p, o);
      SectionOk(w.cfg, out.rows, out.pc, aborted)
  {
    hide Capped;
    var k := if p.ResolveCommit? then p.step else p.job.step;
    var out := GoRuntime(w, d, p, o);
    CappedWrite(d, out.rows, k);
    if p.ResolveCommit? { CappedStatus(w.cfg, d, p, aborted); }
  }

  lemma ClosingHolder(w: World, d: Rows, p: Pc, o: Oracle, aborted: nat)
    requires p.Closing? && SectionOk(w.cfg, d, p, aborted) && Ap.RowsOk(d)
    ensures var out := GoRuntime(w, d, p, o);
      SectionOk(w.cfg, out.rows, out.pc, aborted)
  {
    var out := GoRuntime(w, d, p, o);
    if p.plan.DoMaxSteps? {
      ClosingKills(d, p.step);
      hide Ap.RowsOk;
      assert out.rows.steps[p.step].kind.MaxStepsStep? && out.rows.steps[p.step].status.StepFailed?;
    } else {
      hide Ap.RowsOk, Capped;
      CappedWrite(d, out.rows, p.step);
    }
  }

  lemma HolderActs(w: World, d: Rows, p: Pc, o: Oracle, aborted: nat)
    requires InSection(p) && SectionOk(w.cfg, d, p, aborted)
    requires Ap.RowsOk(d) && Numbered(d.steps) && Ver.PcSteps(d, p)
    ensures var out := GoLocal(w, d, p, o);
      SectionOk(w.cfg, out.rows, out.pc, aborted)
  {
    hide GoGateway, GoApproval, GoRuntime, SectionOk, Ap.RowsOk, Ver.PcSteps;
    if p.Gateway? {
      GatewayHolder(w, d, p, o, aborted);
    } else if p.Inserting? || p.RetryInserting? {
      InsertHolder(w, d, p, o, aborted);
    } else if p.ResolveCommit? || p.Finalizing? {
      WriteHolder(w, d, p, o, aborted);
    } else if p.Closing? {
      ClosingHolder(w, d, p, o, aborted);
    } else {
      QuietSection(w, d, p, o, aborted);
    }
  }

  // ---------------------------------------------------------------- the others act

  /** Outside the sections nobody inserts a step or opens a request, and the dead stay dead. */
  ghost predicate Outside(d: Rows, e: Rows) {
    && e.steps == d.steps
    && (Free(d) ==> Free(e))
    && (Dead(d) ==> Dead(e))
  }

  lemma OutsideActs(w: World, d: Rows, p: Pc, o: Oracle)
    requires !InSection(p) && Ap.RowsOk(d) && Ap.PcOk(d, p)
    ensures Outside(d, GoLocal(w, d, p, o).rows)
  {
    hide GoGateway, GoApproval, GoRuntime, Ap.RowsOk;
    if IsApproval(p) {
      OutsideApproval(w, d, p, o);
    } else if !IsOther(p) {
      OutsideRuntime(w, d, p, o);
    }
  }

  lemma OutsideApproval(w: World, d: Rows, p: Pc, o: Oracle)
    requires IsApproval(p) && Ap.PcOk(d, p)
    ensures Outside(d, GoApproval(w, d, p, o).rows)
  {
  }

  lemma OutsideRuntime(w: World, d: Rows, p: Pc, o: Oracle)
    requires IsRuntime(p) && !InSection(p)
    ensures Outside(d, GoRuntime(w, d, p, o).rows)
  {
  }

  /** The section of the lease holder, whoever it is, is not disturbed. */
  lemma SectionStays(cfg: Config, d: Rows, e: Rows, q: Pc, aborted: nat)
    requires SectionOk(cfg, d, q, aborted) && Outside(d, e)
    ensures SectionOk(cfg, e, q, aborted)
  {
    CappedStays(d, e);
    hide Capped;
  }

  // ---------------------------------------------------------------- timely runs

  /** A section acts only while its lease is fresh. */
  predicate Timely(s: State, x: nat, c: Choice) {
    c.Go? && x in s.callers && InSection(s.callers[x]) ==> s.clock <= Le.Since(s.callers[x]) + s.cfg.ttl
  }

  ghost predicate TimelyRun(s: State, schedule: seq<Turn>) {
    |schedule| > 0 ==>
      var before, t := schedule[..|schedule| - 1], schedule[|schedule| - 1];
      TimelyRun(s, before) && Timely(Run(s, before), t.who, t.choice)
  }

  function HolderPc(s: State): Pc {
    if s.rows.lease.Some? && s.rows.lease.value.holder in s.callers then s.callers[s.rows.lease.value.holder] else Gone
  }

  ghost predicate BoundOk(s: State) {
    SectionOk(s.cfg, s.rows, HolderPc(s), s.aborted)
  }

  lemma SectionEnds(cfg: Config, d: Rows, e: Rows, p: Pc, q: Pc, before: nat, after: nat)
    requires SectionOk(cfg, d, p, before)
    requires e.steps == d.steps && e.requests == d.requests && e.status == d.status
    requires q.Checking? || q.Releasing? || q.Gone?
    requires after == before + 1 || (after == before && !InSection(p))
    ensures SectionOk(cfg, e, q, after)
  {
    CappedStays(d, e);
    hide Capped;
  }

  lemma HolderTurn(s: State, x: nat, o: Oracle)
    requires Ver.Inv(s) && Le.Inv(s) && NumInv(s) && BoundOk(s) && Timely(s, x, Go(o))
    requires x in s.callers && InSection(s.callers[x])
    ensures BoundOk(Apply(s, x, Go(o)))
  {
    var w, p := World(s.cfg, s.clock, x), s.callers[x];
    assert Le.CallerOk(s, x);
    Ver.CallerFacts(s, x);
    Le.Local(w, s.rows, p, o);
    hide GoLocal, SectionOk, Ver.Inv, Ap.RowsOk, Ap.PcOk, Ver.PcSteps;
    HolderActs(w, s.rows, p, o, s.aborted);
  }

  lemma ClaimTurn(s: State, x: nat, o: Oracle)
    requires Le.Inv(s) && BoundOk(s) && x in s.callers && s.callers[x].Claiming?
    ensures BoundOk(Apply(s, x, Go(o)))
  {
    hide GoGateway, GoApproval, SectionOk;
    var t := Apply(s, x, Go(o));
    if t.callers[x].Checking? {
      SectionEnds(s.cfg, s.rows, t.rows, HolderPc(s), HolderPc(t), s.aborted, t.aborted);
    }
  }

  lemma ReleaseTurn(s: State, x: nat, o: Oracle)
    requires Le.Inv(s) && BoundOk(s) && x in s.callers && s.callers[x].Releasing?
    ensures BoundOk(Apply(s, x, Go(o)))
  {
    hide GoGateway, GoApproval, SectionOk;
    var t := Apply(s, x, Go(o));
    if HoldsLease(s.rows, x) {
      SectionEnds(s.cfg, s.rows, t.rows, HolderPc(s), HolderPc(t), s.aborted, t.aborted);
    }
  }

  lemma OutsideTurn(s: State, x: nat, o: Oracle)
    requires Ver.Inv(s) && Le.Inv(s) && BoundOk(s) && x in s.callers
    requires !InSection(s.callers[x]) && !s.callers[x].Claiming? && !s.callers[x].Releasing?
    ensures BoundOk(Apply(s, x, Go(o)))
  {
    var w := World(s.cfg, s.clock, x);
    Ver.CallerFacts(s, x);
    Le.Local(w, s.rows, s.callers[x], o);
    hide GoLocal, SectionOk, Outside, Ver.Inv, Ap.RowsOk, Ap.PcOk, Ver.PcSteps;
    OutsideActs(w, s.rows, s.callers[x], o);
    SectionStays(s.cfg, s.rows, Apply(s, x, Go(o)).rows, HolderPc(s), s.aborted);
  }

  lemma AbortTurn(s: State, x: nat)
    requires Le.Inv(s) && BoundOk(s)
    ensures BoundOk(Apply(s, x, Abort))
  {
    hide SectionOk;
    if x in s.callers && InSection(s.callers[x]) && HoldsLease(s.rows, x) {
      SectionEnds(s.cfg, s.rows, s.rows, s.callers[x], Releasing, s.aborted, s.aborted + 1);
    }
  }

  lemma BoundKeeps(s: State, x: nat, c: Choice)
    requires Ver.Inv(s) && Le.Inv(s) && NumInv(s) && BoundOk(s) && Timely(s, x, c)
    ensures BoundOk(Apply(s, x, c))
  {
    hide GoLocal, Ver.Inv, NumInv, SectionOk;
    if c.Abort? {
      AbortTurn(s, x);
    } else if c.Go? && x in s.callers {
      hide Le.Inv, BoundOk, Apply;
      if InSection(s.callers[x]) { HolderTurn(s, x, c.o); }
      else if s.callers[x].Claiming? { ClaimTurn(s, x, c.o); }
      else if s.callers[x].Releasing? { ReleaseTurn(s, x, c.o); }
      else { OutsideTurn(s, x, c.o); }
    } else {
      SectionStays(s.cfg, s.rows, Apply(s, x, c).rows, HolderPc(s), s.aborted);
    }
  }

  lemma {:induction false} BoundHolds(cfg: Config, schedule: seq<Turn>)
    requires TimelyRun(Init(cfg), schedule)
    ensures BoundOk(Run(Init(cfg), schedule))
  {
    if |schedule| > 0 {
      var before, t := schedule[..|schedule| - 1], schedule[|schedule| - 1];
      BoundHolds(cfg, before);
      Ver.Holds(cfg, before);
      Le.Holds(cfg, before);
      NumHolds(cfg, before);
      BoundKeeps(Run(Init(cfg), before), t.who, t.choice);
    }
  }

  /** MAX_EXECUTION_STEPS + 2 steps at most, and one more for each section that did not end. */
  lemma StepsBounded(cfg: Config, schedule: seq<Turn>)
    requires TimelyRun(Init(cfg), schedule)
    ensures var s := Run(Init(cfg), schedule);
      |s.rows.steps| <= cfg.maxSteps + 2 + s.aborted
  {
    BoundHolds(cfg, schedule);
    Le.ConfigStays(Init(cfg), schedule);
  }

  lemma InsertsNext(s: State, x: nat, o: Oracle)
    requires Le.Inv(s) && Numbered(s.rows.steps) && BoundOk(s)
    requires x in s.callers && InSection(s.callers[x]) && Timely(s, x, Go(o))
    ensures s.callers[x].Inserting? || s.callers[x].RetryInserting? ==> SequenceFree(s.rows.steps, s.callers[x].next)
    ensures !s.callers[x].GivingUp?
  {
    assert Le.CallerOk(s, x);
    hide Le.Inv, Numbered, SequenceFree, Capped, Dead, NoneOpen;
    if s.callers[x].Inserting? || s.callers[x].RetryInserting? { FreeIsNext(s.rows.steps, s.callers[x].next); }
  }

  /** Whoever inserts a step in time gets its sequence number, so `_claim_step` never loses the race. */
  lemma NoCollision(cfg: Config, schedule: seq<Turn>, x: nat, o: Oracle)
    requires TimelyRun(Init(cfg), schedule)
    requires var s := Run(Init(cfg), schedule);
      x in s.callers && InSection(s.callers[x]) && Timely(s, x, Go(o))
    ensures var s := Run(Init(cfg), schedule);
      && (s.callers[x].Inserting? || s.callers[x].RetryInserting? ==> SequenceFree(s.rows.steps, s.callers[x].next))
      && !s.callers[x].GivingUp?
  {
    BoundHolds(cfg, schedule);
    NumHolds(cfg, schedule);
    Le.Holds(cfg, schedule);
    hide Run, BoundOk, Le.Inv, Numbered, Timely;
    InsertsNext(Run(Init(cfg), schedule), x, o);
  }
}
