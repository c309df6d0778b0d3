/** Complete mediation and at-most-once invocation, in every interleaving.

    Before a tool body runs for a request, the trace already holds the permission check, the policy
    decision and the risk assessment of that very request, and they allow the call: outright, or
    together with a claimed approval of the same arguments.  No request ever runs twice. */
module Mediation {
  import opened Base
  import opened Rows
  import opened Protocol
  import opened Outstanding

  ghost predicate NotInvoked(t: seq<TraceEvent>, r: nat) {
    forall j :: 0 <= j < |t| && t[j].Invoked? ==> t[j].request != r
  }

  /** The trace and the row of request `r` say the same. */
  ghost predicate RequestTraced(t: seq<TraceEvent>, r: nat, q: Request) {
    && Permitted(r, q.call, q.permission) in t
    && (forall j :: 0 <= j < |t| && t[j].Permitted? && t[j].request == r ==> t[j] == Permitted(r, q.call, q.permission))
    && (q.policy.Some? ==> PolicyDecided(r, q.policy.value) in t)
    && (forall j :: 0 <= j < |t| && t[j].PolicyDecided? && t[j].request == r ==> q.policy == Some(t[j].action))
    && (q.risk.Some? ==> RiskDecided(r, q.risk.value) in t)
    && (forall j :: 0 <= j < |t| && t[j].RiskDecided? && t[j].request == r ==> q.risk == Some(t[j].action))
  }

  predicate Decided(q: Request, final: PolicyAction) {
    !q.permission.PermitDeny? && q.policy.Some? && q.risk.Some? &&
      CombineDecisions(q.policy.value, q.risk.value) == final
  }

  /** What the gateway call at `at` knows about its request row. */
  predicate RequestFact(q: Request, call: Call, at: GatewayPc) {
    && q.call == call && !q.permission.PermitDeny?
    && match at
       case GwPolicy(_) => q.policy.None? && q.risk.None? && q.permission.PermitConditional?
       case GwRisk(_, policy) => q.risk.None? && q.policy == if q.permission.PermitAllow? then None else Some(policy)
       case GwApprove(_, _) => Decided(q, RequireApproval)
       case GwAllow(_) => Decided(q, Allow)
       case GwInvoke(_) => Decided(q, Allow)
       case _ => true
  }

  /** `pc` may still invoke the tool for the request or the approval it owns. */
  predicate BeforeInvoke(pc: Pc) {
    (pc.Gateway? && OwnsRequest(pc) >= 0 && !pc.at.GwRecord?) || pc.ApLogApproved? || pc.ApLogStarted? || pc.ApInvoke?
  }

  /** The request for which `pc` may still invoke. */
  function RequestOf(d: Rows, pc: Pc): int {
    if OwnsRequest(pc) >= 0 then OwnsRequest(pc)
    else if 0 <= OwnsApproval(pc) < |d.approvals| then d.approvals[OwnsApproval(pc)].request
    else NONE
  }

  ghost predicate PcMediated(d: Rows, pc: Pc) {
    && (0 <= OwnsRequest(pc) < |d.requests| ==> RequestFact(d.requests[OwnsRequest(pc)], pc.job.call, pc.at))
    && (BeforeInvoke(pc) && RequestOf(d, pc) >= 0 ==> NotInvoked(d.trace, RequestOf(d, pc)))
  }

  ghost predicate ApprovalTraced(d: Rows, a: nat, p: Approval) {
    p.request < |d.requests| ==>
      && p.call == d.requests[p.request].call
      && Decided(d.requests[p.request], RequireApproval)
      && (if WasGranted(p) then Granted(a, p.request, p.call) in d.trace else NotInvoked(d.trace, p.request))
  }

  predicate WasGranted(p: Approval) {
    p.status.Approved? || p.status.ApprovalExecuted?
  }

  /** The decisions that stand in `t` let request `r` run with `call`. */
  ghost predicate Mediated(t: seq<TraceEvent>, r: nat, call: Call) {
    && (exists m :: !PermitDeny?(m) && Permitted(r, call, m) in t)
    && (exists p, k :: PolicyDecided(r, p) in t && RiskDecided(r, k) in t && Lets(t, r, call, p, k))
    && (forall p, k :: PolicyDecided(r, p) in t && RiskDecided(r, k) in t ==> Lets(t, r, call, p, k))
  }

  predicate PermitDeny?(m: Permission) { m.PermitDeny? }

  ghost predicate Lets(t: seq<TraceEvent>, r: nat, call: Call, p: PolicyAction, k: PolicyAction) {
    CombineDecisions(p, k).Allow? ||
    (CombineDecisions(p, k).RequireApproval? && exists a :: Granted(a, r, call) in t)
  }

  ghost predicate TraceOk(t: seq<TraceEvent>) {
    && (forall i :: 0 <= i < |t| && t[i].Invoked? ==> Mediated(t[..i], t[i].request, t[i].call))
    && (forall i, j :: 0 <= i < j < |t| && t[i].Invoked? && t[j].Invoked? ==> t[i].request != t[j].request)
  }

  predicate GrantRow(d: Rows, x: TraceEvent)
    requires x.Granted?
  {
    x.approval < |d.approvals| && d.approvals[x.approval].request == x.request && d.approvals[x.approval].call == x.call
  }

  ghost predicate RowsMediated(d: Rows) {
    && (forall j ::
          0 <= j < |d.trace| && (d.trace[j].Permitted? || d.trace[j].PolicyDecided? || d.trace[j].RiskDecided?) ==>
            d.trace[j].request < |d.requests|)
    && (forall j :: 0 <= j < |d.trace| && d.trace[j].Invoked? ==> d.trace[j].request < |d.requests|)
    && (forall j :: 0 <= j < |d.trace| && d.trace[j].Granted? ==> GrantRow(d, d.trace[j]))
    && (forall r :: 0 <= r < |d.requests| ==> RequestTraced(d.trace, r, d.requests[r]))
    && (forall a :: 0 <= a < |d.approvals| ==> ApprovalTraced(d, a, d.approvals[a]))
    && TraceOk(d.trace)
  }

  ghost predicate Inv(s: State) {
    && Outstanding.Inv(s)
    && RowsMediated(s.rows)
    && (forall x :: x in s.callers ==> PcMediated(s.rows, s.callers[x]))
  }

  // ---------------------------------------------------------------- what the commits keep

  predicate SameDecision(q: Request, p: Request) {
    q.call == p.call && q.permission == p.permission && q.policy == p.policy && q.risk == p.risk
  }

  /** A commit that decides nothing: only statuses move, and no approval becomes granted. */
  ghost predicate Plain(d: Rows, e: Rows) {
    && e.trace == d.trace && |e.requests| == |d.requests| && |e.approvals| == |d.approvals|
    && (forall i :: 0 <= i < |d.requests| ==> SameDecision(e.requests[i], d.requests[i]))
    && (forall i :: 0 <= i < |d.approvals| ==>
          && e.approvals[i].request == d.approvals[i].request && e.approvals[i].call == d.approvals[i].call
          && WasGranted(e.approvals[i]) == WasGranted(d.approvals[i]))
  }

  lemma PlainKeeps(d: Rows, e: Rows)
    requires RowsMediated(d) && Plain(d, e)
    ensures RowsMediated(e)
  {
  }

  lemma PlainPc(d: Rows, e: Rows, pc: Pc)
    requires PcMediated(d, pc) && Plain(d, e)
    ensures PcMediated(e, pc)
  {
  }

  /** Appending an entry that is not an invocation. */
  lemma TraceAppend(t: seq<TraceEvent>, x: TraceEvent)
    requires TraceOk(t) && !x.Invoked?
    ensures TraceOk(t + [x])
  {
    forall i | 0 <= i < |t + [x]| && (t + [x])[i].Invoked?
      ensures Mediated((t + [x])[..i], (t + [x])[i].request, (t + [x])[i].call) {
      assert (t + [x])[..i] == t[..i];
    }
  }

  /** Entries about other requests, grants and invocations leave what is traced of `r`. */
  lemma TracedAppend(t: seq<TraceEvent>, x: TraceEvent, r: nat, q: Request)
    requires RequestTraced(t, r, q) && (x.request != r || x.Granted? || x.Invoked?)
    ensures RequestTraced(t + [x], r, q)
  {
  }

  lemma NewRequestKeeps(d: Rows, call: Call, permission: Permission, st: RequestStatus)
    requires RowsMediated(d) && Outstanding.RowsOk(d)
    ensures RowsMediated(NewRequest(d, call, permission, st))
    ensures NotInvoked(NewRequest(d, call, permission, st).trace, |d.requests|)
  {
    var e, x := NewRequest(d, call, permission, st), Permitted(|d.requests|, call, permission);
    TraceAppend(d.trace, x);
    forall r | 0 <= r < |d.requests| ensures RequestTraced(e.trace, r, e.requests[r]) {
      TracedAppend(d.trace, x, r, d.requests[r]);
    }
    assert x in e.trace;
    assert RequestTraced(e.trace, |d.requests|, e.requests[|d.requests|]);
    ApprovalsKeep(d, e);
  }

  /** Approvals whose requests are untouched stay traced when the trace only gains other entries. */
  lemma ApprovalsKeep(d: Rows, e: Rows)
    requires RowsMediated(d) && Outstanding.RowsOk(d) && e.approvals == d.approvals && |d.requests| <= |e.requests|
    requires exists x :: e.trace == d.trace + [x] && !x.Invoked?
    requires forall i :: 0 <= i < |d.requests| && !d.requests[i].status.Requested? ==>
      SameDecision(e.requests[i], d.requests[i])
    ensures forall a :: 0 <= a < |e.approvals| ==> ApprovalTraced(e, a, e.approvals[a])
  {
    forall a | 0 <= a < |e.approvals| ensures ApprovalTraced(e, a, e.approvals[a]) {
      assert ApprovalTraced(d, a, d.approvals[a]);
    }
  }

  lemma RecordPolicyKeeps(d: Rows, r: nat, action: PolicyAction)
    requires RowsMediated(d) && Outstanding.RowsOk(d) && r < |d.requests| && d.requests[r].status.Requested?
    requires d.requests[r].policy.None?
    ensures RowsMediated(RecordPolicy(d, r, action))
  {
    hide RequestTraced, ApprovalTraced, TraceOk;
    var e, x := RecordPolicy(d, r, action), PolicyDecided(r, action);
    TraceAppend(d.trace, x);
    RecordPolicyTraced(d.trace, r, d.requests[r], action);
    forall i | 0 <= i < |d.requests| ensures RequestTraced(e.trace, i, e.requests[i]) {
      if i != r { TracedAppend(d.trace, x, i, d.requests[i]); }
    }
    ApprovalsKeep(d, e);
  }

  lemma RecordPolicyTraced(t: seq<TraceEvent>, r: nat, q: Request, action: PolicyAction)
    requires RequestTraced(t, r, q) && q.policy.None?
    ensures RequestTraced(t + [PolicyDecided(r, action)], r, q.(policy := Some(action)))
  {
    var u := t + [PolicyDecided(r, action)];
    assert u[|t|] == PolicyDecided(r, action) && u[..|t|] == t;
  }

  lemma RecordRiskKeeps(d: Rows, r: nat, action: PolicyAction)
    requires RowsMediated(d) && Outstanding.RowsOk(d) && r < |d.requests| && d.requests[r].status.Requested?
    requires d.requests[r].risk.None?
    ensures RowsMediated(RecordRisk(d, r, action))
  {
    hide RequestTraced, ApprovalTraced, TraceOk;
    var e, x := RecordRisk(d, r, action), RiskDecided(r, action);
    TraceAppend(d.trace, x);
    RecordRiskTraced(d.trace, r, d.requests[r], action);
    forall i | 0 <= i < |d.requests| ensures RequestTraced(e.trace, i, e.requests[i]) {
      if i != r { TracedAppend(d.trace, x, i, d.requests[i]); }
    }
    ApprovalsKeep(d, e);
  }

  lemma RecordRiskTraced(t: seq<TraceEvent>, r: nat, q: Request, action: PolicyAction)
    requires RequestTraced(t, r, q) && q.risk.None?
    ensures RequestTraced(t + [RiskDecided(r, action)], r, q.(risk := Some(action)))
  {
    var u := t + [RiskDecided(r, action)];
    assert u[|t|] == RiskDecided(r, action) && u[..|t|] == t;
  }

  lemma AdmitKeeps(d: Rows, r: nat, now: int)
    requires RowsMediated(d) && r < |d.requests| && Decided(d.requests[r], RequireApproval) && NotInvoked(d.trace, r)
    ensures RowsMediated(AdmitApproval(d, r, now))
  {
    var e := AdmitApproval(d, r, now);
    forall i | 0 <= i < |e.requests| ensures RequestTraced(e.trace, i, e.requests[i]) {
      assert RequestTraced(d.trace, i, d.requests[i]);
    }
    forall a | 0 <= a < |e.approvals| ensures ApprovalTraced(e, a, e.approvals[a]) {
      if a < |d.approvals| { assert ApprovalTraced(d, a, d.approvals[a]); }
    }
  }

  lemma GrantApprovals(d: Rows, a: nat, now: int)
    requires RowsMediated(d) && Outstanding.RowsOk(d) && a < |d.approvals| && ApprovalClaimable(d, a, now)
    ensures var e := ClaimApproval(d, a, true, now);
      && (forall b :: 0 <= b < |e.approvals| ==> ApprovalTraced(e, b, e.approvals[b]))
      && NotInvoked(e.trace, d.approvals[a].request)
  {
    hide RequestTraced, TraceOk, GrantRow, Mediated;
    var e := ClaimApproval(d, a, true, now);
    assert ApprovalTraced(d, a, d.approvals[a]);
    forall b | 0 <= b < |e.approvals| ensures ApprovalTraced(e, b, e.approvals[b]) {
      assert ApprovalTraced(d, b, d.approvals[b]);
    }
  }

  lemma GrantKeeps(d: Rows, a: nat, now: int)
    requires RowsMediated(d) && Outstanding.RowsOk(d) && a < |d.approvals| && ApprovalClaimable(d, a, now)
    ensures RowsMediated(ClaimApproval(d, a, true, now))
    ensures NotInvoked(ClaimApproval(d, a, true, now).trace, d.approvals[a].request)
  {
    GrantApprovals(d, a, now);
    hide RequestTraced, ApprovalTraced, TraceOk, NotInvoked, Outstanding.RowsOk;
    var e := ClaimApproval(d, a, true, now);
    var x := Granted(a, d.approvals[a].request, d.approvals[a].call);
    TraceAppend(d.trace, x);
    forall i | 0 <= i < |d.requests| ensures RequestTraced(e.trace, i, e.requests[i]) {
      TracedAppend(d.trace, x, i, d.requests[i]);
    }
  }

  /** What stands in the trace when a tool is invoked. */
  lemma DecidedMediates(d: Rows, r: nat)
    requires RowsMediated(d) && r < |d.requests|
    requires Decided(d.requests[r], Allow) ||
             (Decided(d.requests[r], RequireApproval) && exists a :: Granted(a, r, d.requests[r].call) in d.trace)
    ensures Mediated(d.trace, r, d.requests[r].call)
  {
    var q := d.requests[r];
    assert RequestTraced(d.trace, r, q);
    assert Lets(d.trace, r, q.call, q.policy.value, q.risk.value);
    assert !PermitDeny?(q.permission);
  }

  /** Appending the invocation of a request that has not run and may. */
  lemma InvokeAppend(t: seq<TraceEvent>, r: nat, call: Call)
    requires TraceOk(t) && NotInvoked(t, r) && Mediated(t, r, call)
    ensures TraceOk(t + [Invoked(r, call)])
  {
    hide Mediated;
    var u := t + [Invoked(r, call)];
    forall i | 0 <= i < |u| && u[i].Invoked? ensures Mediated(u[..i], u[i].request, u[i].call) {
      assert u[..i] == t[..i];
      if i == |t| { assert t[..i] == t; }
    }
  }

  lemma InvokeApprovals(d: Rows, r: nat, x: TraceEvent)
    requires RowsMediated(d) && r < |d.requests| && x.Invoked? && x.request == r
    requires forall a :: 0 <= a < |d.approvals| && !WasGranted(d.approvals[a]) ==> d.approvals[a].request != r
    ensures var e := Trace(d, x);
      forall a :: 0 <= a < |e.approvals| ==> ApprovalTraced(e, a, e.approvals[a])
  {
    hide RequestTraced, TraceOk, GrantRow;
    var e := Trace(d, x);
    forall a | 0 <= a < |e.approvals| ensures ApprovalTraced(e, a, e.approvals[a]) {
      assert ApprovalTraced(d, a, d.approvals[a]);
    }
  }

  lemma InvokeKeeps(d: Rows, r: nat)
    requires RowsMediated(d) && r < |d.requests| && NotInvoked(d.trace, r) && Mediated(d.trace, r, d.requests[r].call)
    requires forall a :: 0 <= a < |d.approvals| && !WasGranted(d.approvals[a]) ==> d.approvals[a].request != r
    ensures RowsMediated(Trace(d, Invoked(r, d.requests[r].call)))
  {
    hide RequestTraced, ApprovalTraced, TraceOk, NotInvoked, Mediated;
    var x := Invoked(r, d.requests[r].call);
    var e := Trace(d, x);
    InvokeAppend(d.trace, r, d.requests[r].call);
    InvokeApprovals(d, r, x);
    forall i | 0 <= i < |d.requests| ensures RequestTraced(e.trace, i, e.requests[i]) {
      TracedAppend(d.trace, x, i, d.requests[i]);
    }
  }

  // ---------------------------------------------------------------- the transitions

  /** Only request `r` gets decisions, and nothing but `r` is invoked. */
  ghost predicate Leaves(d: Rows, e: Rows, r: int) {
    && |d.requests| <= |e.requests| && |d.approvals| <= |e.approvals| && |d.trace| <= |e.trace|
    && (forall i :: 0 <= i < |d.requests| && i != r ==> SameDecision(e.requests[i], d.requests[i]))
    && (forall i :: 0 <= i < |d.approvals| ==> e.approvals[i].request == d.approvals[i].request)
    && (forall j :: 0 <= j < |e.trace| && e.trace[j].Invoked? ==>
          (j < |d.trace| && e.trace[j] == d.trace[j]) || e.trace[j].request == r)
  }

  ghost predicate LocalMediated(d: Rows, p: Pc, out: Out) {
    RowsMediated(out.rows) && PcMediated(out.rows, out.pc) && Leaves(d, out.rows, RequestOf(d, p))
  }

  lemma PlainLocal(d: Rows, p: Pc, out: Out)
    requires RowsMediated(d) && Plain(d, out.rows)
    requires PcMediated(d, out.pc)
    ensures LocalMediated(d, p, out)
  {
    PlainKeeps(d, out.rows);
    PlainPc(d, out.rows, out.pc);
  }

  lemma CheckLocal(d: Rows, pc: Pc, o: Oracle)
    requires pc.Gateway? && pc.at.GwCheck? && Outstanding.RowsOk(d) && RowsMediated(d)
    ensures LocalMediated(d, pc, GoGwCheck(d, pc.since, pc.job, o))
  {
    hide RowsMediated, Outstanding.RowsOk;
    var bad := !o.registered || !o.valid;
    var permission := if bad then PermitDeny else o.permission;
    var st := if bad then RequestFailed else if permission.PermitDeny? then Denied else Requested;
    NewRequestKeeps(d, pc.job.call, permission, st);
    PlainKeeps(NewRequest(d, pc.job.call, permission, st), GoGwCheck(d, pc.since, pc.job, o).rows);
  }

  lemma PolicyLocal(d: Rows, pc: Pc, o: Oracle)
    requires pc.Gateway? && pc.at.GwPolicy? && Outstanding.RowsOk(d) && Outstanding.PcOk(d, pc)
    requires RowsMediated(d) && PcMediated(d, pc)
    ensures LocalMediated(d, pc, GoGwPolicy(d, pc.since, pc.job, pc.at.request, o))
  {
    hide RowsMediated, Outstanding.RowsOk;
    var r := pc.at.request;
    RecordPolicyKeeps(d, r, o.policy);
    PlainKeeps(RecordPolicy(d, r, o.policy), GoGwPolicy(d, pc.since, pc.job, r, o).rows);
  }

  lemma RiskLocal(d: Rows, pc: Pc, o: Oracle)
    requires pc.Gateway? && pc.at.GwRisk? && Outstanding.RowsOk(d) && Outstanding.PcOk(d, pc)
    requires RowsMediated(d) && PcMediated(d, pc)
    ensures LocalMediated(d, pc, GoGwRisk(d, pc.since, pc.job, pc.at.request, pc.at.policy, o))
  {
    hide RowsMediated, Outstanding.RowsOk, Outstanding.Touches;
    var r, policy := pc.at.request, pc.at.policy;
    var c := if d.requests[r].permission.PermitAllow? then RecordPolicy(d, r, policy) else d;
    if d.requests[r].permission.PermitAllow? {
      RecordPolicyKeeps(d, r, policy);
      Outstanding.RequestStep(d, c, r);
    }
    RecordRiskKeeps(c, r, o.risk);
    PlainKeeps(RecordRisk(c, r, o.risk), GoGwRisk(d, pc.since, pc.job, r, policy, o).rows);
  }

  lemma ApproveLocal(w: World, d: Rows, pc: Pc, o: Oracle)
    requires pc.Gateway? && pc.at.GwApprove? && Outstanding.PcOk(d, pc) && RowsMediated(d) && PcMediated(d, pc)
    ensures LocalMediated(d, pc, GoGateway(w, d, pc.since, pc.job, pc.at, o))
  {
    hide RowsMediated;
    var out := GoGateway(w, d, pc.since, pc.job, pc.at, o);
    if d.status.Running? && o.now <= w.clock {
      AdmitKeeps(d, pc.at.request, o.now);
      PlainKeeps(AdmitApproval(d, pc.at.request, o.now), out.rows);
    }
  }

  lemma GatewayInvokes(d: Rows, r: nat)
    requires Outstanding.RowsOk(d) && RowsMediated(d) && r < |d.requests| && d.requests[r].status.Requested?
    requires Decided(d.requests[r], Allow) && NotInvoked(d.trace, r)
    ensures RowsMediated(Trace(d, Invoked(r, d.requests[r].call)))
  {
    hide RowsMediated;
    DecidedMediates(d, r);
    InvokeKeeps(d, r);
  }

  lemma ApprovalInvokes(d: Rows, a: nat)
    requires Outstanding.RowsOk(d) && RowsMediated(d) && a < |d.approvals| && d.approvals[a].status.Approved?
    requires NotInvoked(d.trace, d.approvals[a].request)
    ensures RowsMediated(Trace(d, Invoked(d.approvals[a].request, d.approvals[a].call)))
  {
    assert ApprovalTraced(d, a, d.approvals[a]);
    hide RowsMediated, TraceOk;
    DecidedMediates(d, d.approvals[a].request);
    InvokeKeeps(d, d.approvals[a].request);
  }

  lemma GwInvokeLocal(w: World, d: Rows, pc: Pc, o: Oracle)
    requires pc.Gateway? && pc.at.GwInvoke? && Outstanding.RowsOk(d) && Outstanding.PcOk(d, pc)
    requires RowsMediated(d) && PcMediated(d, pc)
    ensures LocalMediated(d, pc, GoGateway(w, d, pc.since, pc.job, pc.at, o))
  {
    hide RowsMediated, Outstanding.RowsOk;
    GatewayInvokes(d, pc.at.request);
  }

  lemma GatewayLocal(w: World, d: Rows, pc: Pc, o: Oracle)
    requires pc.Gateway? && Outstanding.RowsOk(d) && Outstanding.PcOk(d, pc) && RowsMediated(d) && PcMediated(d, pc)
    ensures LocalMediated(d, pc, GoGateway(w, d, pc.since, pc.job, pc.at, o))
  {
    hide RowsMediated, Outstanding.RowsOk, LocalMediated;
    if pc.at.GwCheck? {
      CheckLocal(d, pc, o);
    } else if pc.at.GwPolicy? {
      PolicyLocal(d, pc, o);
    } else if pc.at.GwRisk? {
      RiskLocal(d, pc, o);
    } else if pc.at.GwApprove? {
      ApproveLocal(w, d, pc, o);
    } else if pc.at.GwInvoke? {
      GwInvokeLocal(w, d, pc, o);
    } else {
      PlainLocal(d, pc, GoGateway(w, d, pc.since, pc.job, pc.at, o));
    }
  }

  lemma ApInvokeLocal(w: World, d: Rows, pc: Pc, o: Oracle)
    requires pc.ApInvoke? && o.registered && Outstanding.RowsOk(d) && Outstanding.PcOk(d, pc)
    requires RowsMediated(d) && PcMediated(d, pc)
    ensures LocalMediated(d, pc, GoApproval(w, d, pc, o))
  {
    hide RowsMediated, Outstanding.RowsOk;
    ApprovalInvokes(d, pc.approval);
  }

  lemma GrantLocal(w: World, d: Rows, pc: Pc, o: Oracle)
    requires pc.ApClaim? && pc.approve && pc.approval < |d.approvals| && ApprovalClaimable(d, pc.approval, pc.now)
    requires Outstanding.RowsOk(d) && RowsMediated(d)
    ensures LocalMediated(d, pc, GoApproval(w, d, pc, o))
  {
    hide RowsMediated, Outstanding.RowsOk;
    Outstanding.InRange(d, pc.approval);
    GrantKeeps(d, pc.approval, pc.now);
  }

  predicate Grants(d: Rows, pc: Pc) {
    pc.ApClaim? && pc.approve && pc.approval < |d.approvals| && ApprovalClaimable(d, pc.approval, pc.now)
  }

  lemma ApprovalPlain(w: World, d: Rows, pc: Pc, o: Oracle)
    requires IsApproval(pc) && Outstanding.PcOk(d, pc)
    requires !(pc.ApInvoke? && o.registered) && !Grants(d, pc)
    ensures Plain(d, GoApproval(w, d, pc, o).rows)
  {
  }

  lemma ApprovalPc(w: World, d: Rows, pc: Pc, o: Oracle)
    requires IsApproval(pc) && PcMediated(d, pc)
    requires !(pc.ApInvoke? && o.registered) && !Grants(d, pc)
    ensures PcMediated(d, GoApproval(w, d, pc, o).pc)
  {
    hide NotInvoked, RequestFact;
  }

  lemma ApprovalLocal(w: World, d: Rows, pc: Pc, o: Oracle)
    requires IsApproval(pc) && Outstanding.RowsOk(d) && Outstanding.PcOk(d, pc) && RowsMediated(d) && PcMediated(d, pc)
    ensures LocalMediated(d, pc, GoApproval(w, d, pc, o))
  {
    hide RowsMediated, Outstanding.RowsOk, LocalMediated, GoApproval, Plain;
    if pc.ApInvoke? && o.registered {
      ApInvokeLocal(w, d, pc, o);
    } else if Grants(d, pc) {
      GrantLocal(w, d, pc, o);
    } else {
      ApprovalPlain(w, d, pc, o);
      ApprovalPc(w, d, pc, o);
      PlainLocal(d, pc, GoApproval(w, d, pc, o));
    }
  }

  lemma RuntimeLocal(w: World, d: Rows, pc: Pc, o: Oracle)
    requires IsRuntime(pc) && RowsMediated(d)
    ensures LocalMediated(d, pc, GoRuntime(w, d, pc, o))
  {
    hide RowsMediated, LocalMediated;
    RuntimeTrace(w, d, pc, o);
    hide GoRuntime;
    PlainLocal(d, pc, GoRuntime(w, d, pc, o));
  }

  lemma RuntimeTrace(w: World, d: Rows, pc: Pc, o: Oracle)
    requires IsRuntime(pc)
    ensures var out := GoRuntime(w, d, pc, o);
      && out.rows.trace == d.trace && out.rows.requests == d.requests && out.rows.approvals == d.approvals
      && OwnsRequest(out.pc) == NONE && OwnsApproval(out.pc) == NONE
  {
    hide MaxSequence, SequenceFree, LastWaiting, VerdictOf, TerminalEvent, PlanOf, LeaseClaimable;
  }

  lemma OtherLocal(d: Rows, pc: Pc)
    requires IsOther(pc) && RowsMediated(d)
    ensures LocalMediated(d, pc, GoOther(d, pc))
  {
    hide RowsMediated, LocalMediated;
    PlainLocal(d, pc, GoOther(d, pc));
  }

  lemma Local(w: World, d: Rows, pc: Pc, o: Oracle)
    requires Outstanding.RowsOk(d) && Outstanding.PcOk(d, pc) && RowsMediated(d) && PcMediated(d, pc)
    ensures LocalMediated(d, pc, GoLocal(w, d, pc, o))
  {
    hide RowsMediated, LocalMediated, Outstanding.RowsOk, GoGateway, GoApproval, GoRuntime, GoOther;
    if pc.Gateway? {
      GatewayLocal(w, d, pc, o);
    } else if IsApproval(pc) {
      ApprovalLocal(w, d, pc, o);
    } else if IsOther(pc) {
      OtherLocal(d, pc);
    } else {
      RuntimeLocal(w, d, pc, o);
    }
  }

  lemma OtherKeeps(d: Rows, p: Pc, q: Pc, e: Rows)
    requires Outstanding.RowsOk(d) && Outstanding.PcOk(d, p) && Outstanding.PcOk(d, q)
    requires Outstanding.Apart(p, q) && Outstanding.Apart(q, p)
    requires Leaves(d, e, RequestOf(d, p)) && PcMediated(d, q)
    ensures PcMediated(e, q)
  {
    hide RequestFact;
    if 0 <= OwnsRequest(q) < |d.requests| {
      FactStays(d.requests[OwnsRequest(q)], e.requests[OwnsRequest(q)], q);
    }
  }

  lemma FactStays(q: Request, p: Request, pc: Pc)
    requires pc.Gateway? && SameDecision(q, p) && RequestFact(q, pc.job.call, pc.at)
    ensures RequestFact(p, pc.job.call, pc.at)
  {
  }

  lemma MoveKeeps(s: State, x: nat, p: Pc, out: Out, t: State)
    requires Inv(s) && p == (if x in s.callers then s.callers[x] else Gone) && LocalMediated(s.rows, p, out)
    requires t.rows == out.rows && t.callers == s.callers[x := out.pc] && Outstanding.Inv(t)
    ensures Inv(t)
  {
    hide RowsMediated;
    forall y | y in t.callers ensures PcMediated(t.rows, t.callers[y]) {
      if y != x {
        assert Outstanding.PcOk(s.rows, s.callers[y]);
        if x in s.callers {
          assert Outstanding.PcOk(s.rows, p) && Outstanding.Apart(p, s.callers[y]) &&
            Outstanding.Apart(s.callers[y], p);
        }
        OtherKeeps(s.rows, p, s.callers[y], t.rows);
      }
    }
  }

  lemma Keeps(s: State, x: nat, c: Choice)
    requires Inv(s)
    ensures Inv(Apply(s, x, c))
  {
    hide GoLocal, LocalMediated, RowsMediated, Outstanding.Inv;
    var w, t := World(s.cfg, s.clock, x), Apply(s, x, c);
    var p := if x in s.callers then s.callers[x] else Gone;
    Outstanding.Keeps(s, x, c);
    if x in s.callers && c.Go? {
      OutstandingFacts(s, x);
      Local(w, s.rows, p, c.o);
      MoveKeeps(s, x, p, GoLocal(w, s.rows, p, c.o), t);
    } else if t.callers != s.callers {
      PlainLocal(s.rows, p, Out(t.rows, t.callers[x]));
      MoveKeeps(s, x, p, Out(t.rows, t.callers[x]), t);
    } else {
      PlainKeeps(s.rows, t.rows);
      forall y | y in t.callers ensures PcMediated(t.rows, t.callers[y]) { PlainPc(s.rows, t.rows, s.callers[y]); }
    }
  }

  lemma OutstandingFacts(s: State, x: nat)
    requires Outstanding.Inv(s) && x in s.callers
    ensures Outstanding.RowsOk(s.rows) && Outstanding.PcOk(s.rows, s.callers[x])
  {
  }

  // ---------------------------------------------------------------- every run

  lemma {:induction false} Holds(cfg: Config, schedule: seq<Turn>)
    ensures Inv(Run(Init(cfg), schedule))
  {
    hide Inv, Apply;
    if |schedule| > 0 {
      var t := schedule[|schedule| - 1];
      Holds(cfg, schedule[..|schedule| - 1]);
      Keeps(Run(Init(cfg), schedule[..|schedule| - 1]), t.who, t.choice);
    } else {
      InitInv(cfg);
    }
  }

  lemma InitInv(cfg: Config)
    ensures Inv(Init(cfg))
  {
  }

  /** Every tool invocation of every run was mediated before it happened. */
  lemma CompleteMediation(cfg: Config, schedule: seq<Turn>, i: nat)
    requires i < |Run(Init(cfg), schedule).rows.trace| && Run(Init(cfg), schedule).rows.trace[i].Invoked?
    ensures var t := Run(Init(cfg), schedule).rows.trace;
      Mediated(t[..i], t[i].request, t[i].call)
  {
    Holds(cfg, schedule);
  }

  /** A tool request, and so an approval, is invoked at most once. */
  lemma InvokedOnce(cfg: Config, schedule: seq<Turn>, i: nat, j: nat)
    requires i < j < |Run(Init(cfg), schedule).rows.trace|
    requires var t := Run(Init(cfg), schedule).rows.trace; t[i].Invoked? && t[j].Invoked?
    ensures var t := Run(Init(cfg), schedule).rows.trace; t[i].request != t[j].request
  {
    Holds(cfg, schedule);
  }

  /** An approval that was rejected, that expired or that is still pending has had no effect; the
      effect of a granted one carries exactly the approved arguments, after the grant. */
  lemma NeverWithoutGrant(cfg: Config, schedule: seq<Turn>, a: nat, i: nat)
    requires var d := Run(Init(cfg), schedule).rows;
      a < |d.approvals| && i < |d.trace| && d.trace[i].Invoked? && d.trace[i].request == d.approvals[a].request
    ensures var d := Run(Init(cfg), schedule).rows;
      && WasGranted(d.approvals[a])
      && d.trace[i].call == d.approvals[a].call
      && (exists j :: 0 <= j < i && d.trace[j] == Granted(a, d.approvals[a].request, d.approvals[a].call))
  {
    Holds(cfg, schedule);
    hide Run, Plain;
    GrantPrecedes(Run(Init(cfg), schedule).rows, a, i);
  }

  lemma GrantPrecedes(d: Rows, a: nat, i: nat)
    requires Outstanding.RowsOk(d) && RowsMediated(d)
    requires a < |d.approvals| && i < |d.trace| && d.trace[i].Invoked? && d.trace[i].request == d.approvals[a].request
    ensures WasGranted(d.approvals[a])
    ensures d.trace[i].call == d.approvals[a].call
    ensures exists j :: 0 <= j < i && d.trace[j] == Granted(a, d.approvals[a].request, d.approvals[a].call)
  {
    Outstanding.InRange(d, a);
    ApprovedFacts(d, a);
    hide RowsMediated, Outstanding.RowsOk;
    var r, call := d.trace[i].request, d.trace[i].call;
    MediatedAt(d, i);
    var j, b := GrantBefore(d, i, d.approvals[a]);
    GrantedRow(d, j);
    OneApproval(d, a, b);
  }

  /** The decisions of an approval's request leave only one way to be mediated: by a grant. */
  lemma GrantBefore(d: Rows, i: nat, p: Approval) returns (j: nat, b: nat)
    requires RowsMediated(d) && i < |d.trace| && d.trace[i].Invoked? && d.trace[i].request == p.request < |d.requests|
    requires Decided(d.requests[p.request], RequireApproval)
    ensures j < i && d.trace[j] == Granted(b, p.request, d.trace[i].call)
  {
    var t, r, call := d.trace[..i], d.trace[i].request, d.trace[i].call;
    MediatedAt(d, i);
    hide RowsMediated;
    var m, k :| PolicyDecided(r, m) in t && RiskDecided(r, k) in t && Lets(t, r, call, m, k);
    assert PolicyDecided(r, m) in d.trace && RiskDecided(r, k) in d.trace;
    DecidedOnce(d, r, m, k);
    b :| Granted(b, r, call) in t;
    j :| 0 <= j < |t| && t[j] == Granted(b, r, call);
  }

  lemma OneApproval(d: Rows, a: nat, b: nat)
    requires Outstanding.RowsOk(d) && a < |d.approvals| && b < |d.approvals| &&
      d.approvals[a].request == d.approvals[b].request
    ensures a == b
  {
  }

  lemma MediatedAt(d: Rows, i: nat)
    requires RowsMediated(d) && i < |d.trace| && d.trace[i].Invoked?
    ensures Mediated(d.trace[..i], d.trace[i].request, d.trace[i].call) && d.trace[i].request < |d.requests|
  {
    hide RequestTraced, ApprovalTraced, Mediated;
  }

  lemma ApprovedFacts(d: Rows, a: nat)
    requires RowsMediated(d) && a < |d.approvals| && d.approvals[a].request < |d.requests|
    ensures ApprovalTraced(d, a, d.approvals[a])
  {
    hide RequestTraced, ApprovalTraced, TraceOk;
  }

  /** The decisions in the trace are those in the row. */
  lemma DecidedOnce(d: Rows, r: nat, p: PolicyAction, k: PolicyAction)
    requires RowsMediated(d) && r < |d.requests| && PolicyDecided(r, p) in d.trace && RiskDecided(r, k) in d.trace
    ensures d.requests[r].policy == Some(p) && d.requests[r].risk == Some(k)
  {
    hide ApprovalTraced, TraceOk;
    assert RequestTraced(d.trace, r, d.requests[r]);
  }

  lemma GrantedRow(d: Rows, j: nat)
    requires RowsMediated(d) && j < |d.trace| && d.trace[j].Granted?
    ensures GrantRow(d, d.trace[j])
  {
    hide RequestTraced, ApprovalTraced, TraceOk, GrantRow;
  }
}
