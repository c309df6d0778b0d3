/** At most one approval of an execution is outstanding, in every interleaving. */
module Outstanding {
  import opened Base
  import opened Rows
  import opened Protocol

  const NONE: int := -1

  /** The tool request that a gateway call is still deciding or executing, or NONE. */
  function OwnsRequest(pc: Pc): int {
    if !pc.Gateway? || pc.at.GwEntry? || pc.at.GwRequested? || pc.at.GwCheck? then NONE else pc.at.request
  }

  /** The approval that a caller has claimed and whose outcome it has not committed, or NONE. */
  function OwnsApproval(pc: Pc): int {
    if pc.ApExpireRead? || pc.ApExpireCommit? || pc.ApReject? || pc.ApLogApproved? || pc.ApLogStarted? ||
       pc.ApInvoke? || pc.ApOutcome?
    then pc.approval
    else NONE
  }

  function ClaimedStatus(pc: Pc): ApprovalStatus {
    if pc.ApExpireRead? || pc.ApExpireCommit? then Expired else if pc.ApReject? then Rejected else Approved
  }

  ghost predicate RowsOk(d: Rows) {
    && (forall a :: 0 <= a < |d.approvals| ==>
          && d.approvals[a].request < |d.requests| && !d.requests[d.approvals[a].request].status.Requested?)
    && (forall a, b :: 0 <= a < b < |d.approvals| ==> d.approvals[a].request != d.approvals[b].request)
    && (forall a :: 0 <= a < |d.approvals| && d.approvals[a].status.Pending? ==> d.Outstanding(a))
    && (forall r :: 0 <= r < |d.requests| && d.requests[r].status.RequiresApproval? ==>
          && |d.approvals| > 0 && d.approvals[|d.approvals| - 1].request == r
          && (d.status.WaitingApproval? || d.status.Cancelled?))
    && (d.status.WaitingApproval? ==> |d.approvals| > 0 && d.Outstanding(|d.approvals| - 1))
  }

  ghost predicate PcOk(d: Rows, pc: Pc) {
    && (OwnsRequest(pc) >= 0 ==>
          OwnsRequest(pc) < |d.requests| && d.requests[OwnsRequest(pc)].status.Requested?)
    && (OwnsApproval(pc) >= 0 ==>
          d.Outstanding(OwnsApproval(pc)) && d.approvals[OwnsApproval(pc)].status == ClaimedStatus(pc))
    && (pc.ApExpireCommit? && !pc.sawWaiting ==> d.status.Cancelled?)
  }

  ghost predicate Apart(p: Pc, q: Pc) {
    && (OwnsRequest(p) >= 0 ==> OwnsRequest(p) != OwnsRequest(q))
    && (OwnsApproval(p) >= 0 ==> OwnsApproval(p) != OwnsApproval(q))
  }

  ghost predicate Inv(s: State) {
    && RowsOk(s.rows)
    && (forall x :: x in s.callers ==> PcOk(s.rows, s.callers[x]))
    && (forall x, y :: x in s.callers && y in s.callers && x != y ==> Apart(s.callers[x], s.callers[y]))
  }

  // ---------------------------------------------------------------- what one transition may touch

  /** From `d` to `e` at most request `r` and approval `a` change; the tables only grow. */
  ghost predicate Touches(d: Rows, e: Rows, r: int, a: int) {
    && |d.requests| <= |e.requests| && |d.approvals| <= |e.approvals|
    && (forall i :: 0 <= i < |d.requests| && i != r ==> e.requests[i].status == d.requests[i].status)
    && (forall i :: 0 <= i < |d.approvals| ==>
          && e.approvals[i].request == d.approvals[i].request
          && (i != a ==> e.approvals[i].status == d.approvals[i].status))
  }

  /** `q` owns what `p` owned, a request inserted by this transition, or an approval that was PENDING. */
  ghost predicate Acquires(d: Rows, p: Pc, q: Pc) {
    && (OwnsRequest(q) == NONE || OwnsRequest(q) == OwnsRequest(p) || OwnsRequest(q) == |d.requests|)
    && (OwnsApproval(q) == NONE || OwnsApproval(q) == OwnsApproval(p) ||
        (OwnsApproval(q) < |d.approvals| && d.approvals[OwnsApproval(q)].status.Pending?))
  }

  /** The request and the approval that `p` is about to write. */
  function Target(d: Rows, p: Pc): (int, int) {
    if p.Gateway? then (OwnsRequest(p), NONE)
    else if !IsApproval(p) || p.approval >= |d.approvals| then (NONE, NONE)
    else if OwnsApproval(p) >= 0 then (d.approvals[p.approval].request, p.approval)
    else if d.approvals[p.approval].status.Pending? then (NONE, p.approval)
    else (NONE, NONE)
  }

  /** The rows stay consistent and nothing but `r` and `a` changes.  CANCELLED is left only together
      with the outcome of an approval. */
  ghost predicate RowsStep(d: Rows, e: Rows, r: int, a: int) {
    && RowsOk(e)
    && Touches(d, e, r, a)
    && (d.status.Cancelled? ==> e.status.Cancelled? || (a >= 0 && r >= 0))
  }

  ghost predicate LocalOk(d: Rows, p: Pc, out: Out) {
    && RowsStep(d, out.rows, Target(d, p).0, Target(d, p).1)
    && PcOk(out.rows, out.pc)
    && Acquires(d, p, out.pc)
  }

  // ---------------------------------------------------------------- the commits, one by one

  /** Whatever is not in these three tables does not matter here. */
  lemma SameTables(d: Rows, e: Rows, f: Rows, r: int, a: int)
    requires RowsStep(d, e, r, a)
    requires f.requests == e.requests && f.approvals == e.approvals && f.status == e.status
    ensures RowsStep(d, f, r, a)
  {
  }

  /** The status changes that need no approval. */
  predicate Calm(a: ExecutionStatus, b: ExecutionStatus) {
    a == b || (a.Created? && b.Running?) || (a.Running? && Terminal(b)) || (a.WaitingApproval? && b.Cancelled?)
  }

  lemma NoStep(d: Rows, e: Rows, r: int, a: int)
    requires RowsOk(d)
    requires e.requests == d.requests && e.approvals == d.approvals && Calm(d.status, e.status)
    ensures RowsStep(d, e, r, a)
  {
  }

  lemma NewRequestStep(d: Rows, call: Call, permission: Permission, st: RequestStatus)
    requires RowsOk(d) && !st.RequiresApproval?
    ensures RowsStep(d, NewRequest(d, call, permission, st), NONE, NONE)
  {
  }

  /** Request `r` is not (or no longer) part of an approval, and does not enter one. */
  lemma RequestStep(d: Rows, e: Rows, r: nat)
    requires RowsOk(d) && r < |d.requests| && d.requests[r].status.Requested?
    requires |e.requests| == |d.requests| && e.approvals == d.approvals && e.status == d.status
    requires forall i :: 0 <= i < |d.requests| && i != r ==> e.requests[i].status == d.requests[i].status
    requires !e.requests[r].status.RequiresApproval?
    ensures RowsStep(d, e, r, NONE)
  {
  }

  lemma AdmitStep(d: Rows, r: nat, now: int)
    requires RowsOk(d) && r < |d.requests| && d.requests[r].status.Requested? && d.status.Running?
    ensures RowsStep(d, AdmitApproval(d, r, now), r, NONE)
  {
    var e := AdmitApproval(d, r, now);
    assert e.Outstanding(|e.approvals| - 1);
  }

  /** A claim changes only the claimed approval, which stays outstanding. */
  lemma ClaimStep(d: Rows, e: Rows, a: nat)
    requires RowsOk(d) && a < |d.approvals| && d.approvals[a].status.Pending?
    requires e.requests == d.requests && e.status == d.status && |e.approvals| == |d.approvals|
    requires forall i :: 0 <= i < |d.approvals| ==> e.approvals[i].request == d.approvals[i].request
    requires forall i :: 0 <= i < |d.approvals| && i != a ==> e.approvals[i].status == d.approvals[i].status
    ensures RowsStep(d, e, NONE, a) && e.Outstanding(a)
  {
  }

  /** Committing the outcome of the outstanding approval leaves none outstanding. */
  lemma OutcomeStep(d: Rows, e: Rows, a: nat)
    requires RowsOk(d) && d.Outstanding(a) && !d.approvals[a].status.Pending?
    requires |e.requests| == |d.requests| && |e.approvals| == |d.approvals|
    requires forall i :: 0 <= i < |d.requests| && i != d.approvals[a].request ==>
      e.requests[i].status == d.requests[i].status
    requires forall i :: 0 <= i < |d.approvals| ==> e.approvals[i].request == d.approvals[i].request
    requires forall i :: 0 <= i < |d.approvals| && i != a ==> e.approvals[i].status == d.approvals[i].status
    requires !e.approvals[a].status.Pending?
    requires var st := e.requests[d.approvals[a].request].status; !st.Requested? && !st.RequiresApproval?
    requires !e.status.WaitingApproval?
    ensures RowsStep(d, e, d.approvals[a].request, a)
    ensures forall i :: 0 <= i < |e.requests| ==> !e.requests[i].status.RequiresApproval?
  {
  }

  // ---------------------------------------------------------------- the transitions

  /** A runtime call never writes requests or approvals; the status leaves RUNNING only to end. */
  lemma RuntimeShape(w: World, d: Rows, pc: Pc, o: Oracle)
    requires IsRuntime(pc)
    ensures var out := GoRuntime(w, d, pc, o);
      && out.rows.requests == d.requests && out.rows.approvals == d.approvals
      && (out.rows.status == d.status || (d.status.Running? && Terminal(out.rows.status)))
      && OwnsRequest(out.pc) == NONE && OwnsApproval(out.pc) == NONE && !out.pc.ApExpireCommit?
  {
  }

  lemma CheckLocal(d: Rows, pc: Pc, o: Oracle)
    requires pc.Gateway? && pc.at.GwCheck? && RowsOk(d)
    ensures LocalOk(d, pc, GoGwCheck(d, pc.since, pc.job, o))
  {
    hide RowsOk, Touches, RowsStep;
    var bad := !o.registered || !o.valid;
    var permission := if bad then PermitDeny else o.permission;
    var st := if bad then RequestFailed else if permission.PermitDeny? then Denied else Requested;
    NewRequestStep(d, pc.job.call, permission, st);
    SameTables(d, NewRequest(d, pc.job.call, permission, st), GoGwCheck(d, pc.since, pc.job, o).rows, NONE, NONE);
  }

  lemma ApproveLocal(w: World, d: Rows, pc: Pc, o: Oracle)
    requires pc.Gateway? && pc.at.GwApprove? && RowsOk(d) && PcOk(d, pc)
    ensures LocalOk(d, pc, GoGateway(w, d, pc.since, pc.job, pc.at, o))
  {
    hide RowsOk, Touches, RowsStep;
    var e := GoGateway(w, d, pc.since, pc.job, pc.at, o).rows;
    if d.status.Running? && o.now <= w.clock {
      AdmitStep(d, pc.at.request, o.now);
      SameTables(d, AdmitApproval(d, pc.at.request, o.now), e, pc.at.request, NONE);
    } else {
      NoStep(d, e, pc.at.request, NONE);
    }
  }

  lemma GatewayLocal(w: World, d: Rows, pc: Pc, o: Oracle)
    requires pc.Gateway? && RowsOk(d) && PcOk(d, pc)
    ensures LocalOk(d, pc, GoGateway(w, d, pc.since, pc.job, pc.at, o))
  {
    hide RowsOk, Touches, RowsStep;
    var e := GoGateway(w, d, pc.since, pc.job, pc.at, o).rows;
    if pc.at.GwCheck? {
      CheckLocal(d, pc, o);
    } else if pc.at.GwApprove? {
      ApproveLocal(w, d, pc, o);
    } else if pc.at.GwPolicy? || pc.at.GwRisk? || pc.at.GwBlock? || pc.at.GwRecord? {
      RequestStep(d, e, pc.at.request);
    } else {
      NoStep(d, e, OwnsRequest(pc), NONE);
    }
  }

  lemma InRange(d: Rows, a: nat)
    requires RowsOk(d) && a < |d.approvals|
    ensures d.approvals[a].request < |d.requests|
  {
  }

  lemma OpenStatus(d: Rows, a: nat)
    requires RowsOk(d) && d.Outstanding(a)
    ensures a == |d.approvals| - 1 && (d.status.WaitingApproval? || d.status.Cancelled?)
  {
  }

  lemma ClaimLocal(w: World, d: Rows, pc: Pc, o: Oracle)
    requires RowsOk(d) && PcOk(d, pc)
    requires (pc.ApExpire? || pc.ApClaim?) && pc.approval < |d.approvals| && d.approvals[pc.approval].status.Pending?
    ensures LocalOk(d, pc, GoApproval(w, d, pc, o))
  {
    assert d.Outstanding(pc.approval);
    ClaimStep(d, GoApproval(w, d, pc, o).rows, pc.approval);
    hide RowsOk, Touches, RowsStep;
  }

  lemma OutcomeLocal(w: World, d: Rows, pc: Pc, o: Oracle)
    requires RowsOk(d) && PcOk(d, pc)
    requires pc.ApReject? || pc.ApOutcome? || (pc.ApExpireCommit? && !o.collided)
    ensures LocalOk(d, pc, GoApproval(w, d, pc, o))
  {
    hide RowsOk, Touches, RowsStep;
    OutcomeStep(d, GoApproval(w, d, pc, o).rows, pc.approval);
  }

  lemma ApprovalLocal(w: World, d: Rows, pc: Pc, o: Oracle)
    requires IsApproval(pc) && RowsOk(d) && PcOk(d, pc)
    ensures LocalOk(d, pc, GoApproval(w, d, pc, o))
  {
    hide RowsOk, Touches, RowsStep;
    if pc.ApReject? || pc.ApOutcome? || (pc.ApExpireCommit? && !o.collided) {
      OutcomeLocal(w, d, pc, o);
    } else if (pc.ApExpire? || pc.ApClaim?) && pc.approval < |d.approvals| && d.approvals[pc.approval].status.Pending? {
      ClaimLocal(w, d, pc, o);
    } else {
      NoStep(d, GoApproval(w, d, pc, o).rows, Target(d, pc).0, Target(d, pc).1);
      if pc.ApExpireRead? { OpenStatus(d, pc.approval); }
    }
  }

  lemma OtherLocal(d: Rows, pc: Pc)
    requires IsOther(pc) && RowsOk(d)
    ensures LocalOk(d, pc, GoOther(d, pc))
  {
    hide RowsOk, Touches, RowsStep;
    NoStep(d, GoOther(d, pc).rows, NONE, NONE);
  }

  lemma Local(w: World, d: Rows, pc: Pc, o: Oracle)
    requires RowsOk(d) && PcOk(d, pc)
    ensures LocalOk(d, pc, GoLocal(w, d, pc, o))
  {
    hide GoGateway, GoApproval, GoRuntime, GoOther, RowsOk, Touches;
    if pc.Gateway? {
      GatewayLocal(w, d, pc, o);
    } else if IsApproval(pc) {
      ApprovalLocal(w, d, pc, o);
    } else if IsOther(pc) {
      OtherLocal(d, pc);
    } else {
      RuntimeShape(w, d, pc, o);
      NoStep(d, GoRuntime(w, d, pc, o).rows, NONE, NONE);
    }
  }

  /** Callers apart from `p` lose nothing when `p` writes its target. */
  lemma OtherKeeps(d: Rows, p: Pc, q: Pc, e: Rows)
    requires RowsOk(d) && PcOk(d, p) && PcOk(d, q) && Apart(p, q) && Apart(q, p)
    requires RowsStep(d, e, Target(d, p).0, Target(d, p).1)
    ensures PcOk(e, q)
  {
    TargetApart(d, p, q);
    hide Target, RowsOk;
  }

  /** What `p` is about to write, nobody else owns. */
  lemma TargetApart(d: Rows, p: Pc, q: Pc)
    requires RowsOk(d) && PcOk(d, p) && PcOk(d, q) && Apart(p, q) && Apart(q, p)
    ensures OwnsRequest(q) >= 0 ==> Target(d, p).0 != OwnsRequest(q)
    ensures OwnsApproval(q) >= 0 ==>
      Target(d, p).1 != OwnsApproval(q) && Target(d, p).0 != d.approvals[OwnsApproval(q)].request
    ensures OwnsApproval(q) >= 0 ==> d.approvals[OwnsApproval(q)].request < |d.requests|
    ensures Target(d, p).1 >= 0 && OwnsApproval(q) >= 0 ==> Target(d, p).0 < 0
  {
  }

  /** `p` is what caller `x` was doing; Gone when it had not arrived. */
  lemma MoveKeeps(s: State, x: nat, p: Pc, out: Out, t: State)
    requires Inv(s) && p == (if x in s.callers then s.callers[x] else Gone) && LocalOk(s.rows, p, out)
    requires t.rows == out.rows && t.callers == s.callers[x := out.pc]
    ensures Inv(t)
  {
    var d := s.rows;
    assert PcOk(d, p);
    forall y | y in t.callers ensures PcOk(t.rows, t.callers[y]) {
      if y != x { OtherKeeps(d, p, s.callers[y], out.rows); }
    }
    forall y, z | y in t.callers && z in t.callers && y != z ensures Apart(t.callers[y], t.callers[z]) {
      if y in s.callers { assert PcOk(d, s.callers[y]); }
      if z in s.callers { assert PcOk(d, s.callers[z]); }
      if y in s.callers && z in s.callers { assert Apart(s.callers[y], s.callers[z]); }
    }
  }

  /** Nothing that matters here changes. */
  lemma IdleKeeps(s: State, t: State)
    requires Inv(s) && t.callers == s.callers
    requires t.rows.requests == s.rows.requests && t.rows.approvals == s.rows.approvals &&
      t.rows.status == s.rows.status
    ensures Inv(t)
  {
    forall x | x in t.callers ensures PcOk(t.rows, t.callers[x]) { assert PcOk(s.rows, s.callers[x]); }
  }

  lemma Keeps(s: State, x: nat, c: Choice)
    requires Inv(s)
    ensures Inv(Apply(s, x, c))
  {
    hide GoLocal, PcOk, RowsOk, Apart, RowsStep;
    var w, t := World(s.cfg, s.clock, x), Apply(s, x, c);
    var p := if x in s.callers then s.callers[x] else Gone;
    if x in s.callers && c.Go? {
      Local(w, s.rows, p, c.o);
      MoveKeeps(s, x, p, GoLocal(w, s.rows, p, c.o), t);
    } else if t.callers != s.callers {
      PlainMove(s.rows, p, t.callers[x]);
      MoveKeeps(s, x, p, Out(t.rows, t.callers[x]), t);
    } else {
      IdleKeeps(s, t);
    }
  }

  lemma PlainMove(d: Rows, p: Pc, q: Pc)
    requires RowsOk(d) && OwnsRequest(q) == NONE && OwnsApproval(q) == NONE && !q.ApExpireCommit?
    ensures LocalOk(d, p, Out(d, q))
  {
    hide RowsOk, Touches, RowsStep;
    NoStep(d, d, Target(d, p).0, Target(d, p).1);
  }

  lemma CallerOk(s: State, x: nat)
    requires Inv(s) && x in s.callers
    ensures RowsOk(s.rows) && PcOk(s.rows, s.callers[x])
  {
  }

  // ---------------------------------------------------------------- every run

  lemma {:induction false} Holds(cfg: Config, schedule: seq<Turn>)
    ensures Inv(Run(Init(cfg), schedule))
  {
    if |schedule| > 0 {
      var t := schedule[|schedule| - 1];
      Holds(cfg, schedule[..|schedule| - 1]);
      Keeps(Run(Init(cfg), schedule[..|schedule| - 1]), t.who, t.choice);
    }
  }

  /** However callers interleave, crash and abort: two outstanding approvals are the same one, a
      RUNNING execution has none, and an execution that has one is WAITING_APPROVAL or CANCELLED;
      WAITING_APPROVAL always has one. */
  lemma AtMostOneOutstanding(cfg: Config, schedule: seq<Turn>)
    ensures var d := Run(Init(cfg), schedule).rows;
      && (forall a: nat, b: nat :: d.Outstanding(a) && d.Outstanding(b) ==> a == b)
      && (forall a: nat :: d.Outstanding(a) ==> d.status.WaitingApproval? || d.status.Cancelled?)
      && (d.status.WaitingApproval? ==> exists a: nat :: d.Outstanding(a))
      && (forall a: nat :: a < |d.approvals| && d.approvals[a].status.Pending? ==> d.Outstanding(a))
  {
    Holds(cfg, schedule);
  }
}
