/** `ApprovalEngine` as it is written, one call at a time; every call is a run of the machine. */
module ApprovalEngine {
  import opened Base
  import opened Rows
  import opened Protocol
  import opened Alone
  import opened Executions

  datatype Resolution = NotFound | AlreadyResolved(found: ApprovalStatus) | InvalidState | WasRejected
    | WasExecuted(success: bool)

  ghost predicate Exists(d: Rows, a: nat) {
    a < |d.approvals| && d.approvals[a].request < |d.requests|
  }

  /** The invocation that approval `p` stands for. */
  function Asked(p: Approval): TraceEvent {
    Invoked(p.request, p.call)
  }

  function Grant(a: nat, p: Approval): TraceEvent {
    Granted(a, p.request, p.call)
  }

  predicate SameCall(p: Approval, q: Approval) {
    p.request == q.request && p.call == q.call
  }

  /** The execution goes on, and the request says how the tool ended. */
  ghost predicate Finished(d: Rows, a: nat, success: bool)
    requires Exists(d, a)
  {
    var st := d.requests[d.approvals[a].request].status;
    d.status.Running? && (success <==> st.Executed?) && (!success <==> st.RequestFailed?)
  }

  /** Expiry denies the request that waits, and lets the execution that waits go on. */
  ghost predicate Released(d: Rows, e: Rows, a: nat)
    requires Exists(d, a) && Exists(e, a)
  {
    var r := d.approvals[a].request;
    && e.approvals[a].request == r
    && e.requests[r].status == (if d.requests[r].status.RequiresApproval? then Denied else d.requests[r].status)
    && e.status == (if d.status.WaitingApproval? then Running else d.status)
  }

  /** `_lazy_expire`. */
  method LazyExpire(x: Execution, w: World, env: Env, a: nat, now: int)
    requires Exists(x.Table(), a) && Past(w, env)
    modifies x
    ensures Exists(x.Table(), a)
    ensures if old(x.approvals)[a].status.Pending? && old(x.approvals)[a].expiresAt <= now
      then x.approvals[a].status.Expired? && Reaches(w, env, old(x.Table()), ApExpire(a, now), x.Table(), Gone)
      else x.Table() == old(x.Table())
    ensures x.approvals[a].request == old(x.approvals)[a].request && x.trace == old(x.trace)
    ensures x.Table() != old(x.Table()) ==> Released(old(x.Table()), x.Table(), a)
  {
    hide Reaches, GoRuntime, GoGateway;
    if !x.approvals[a].status.Pending? || x.approvals[a].expiresAt > now { return; }
    ghost var d := x.Table();
    Here(w, env, d, ApExpire(a, now));
    var expired := x.ClaimExpired(a, now);
    ghost var e := x.Table();
    Then(w, env, d, ApExpire(a, now), d, ApExpire(a, now), e, ApExpireRead(a));
    Then(w, env, d, ApExpire(a, now), e, ApExpireRead(a), e, ApExpireCommit(a, x.status.WaitingApproval?));
    if expired {
      x.ExpiryRows(a);
      Then(w, env, d, ApExpire(a, now), e, ApExpireCommit(a, e.status.WaitingApproval?), x.Table(), Gone);
    }
  }

  /** From the claim on: both audit rows, the tool, the outcome. */
  method ExecuteApprovedAction(x: Execution, w: World, env: Env, a: nat) returns (success: bool)
    requires Exists(x.Table(), a)
    modifies x
    ensures success == (env.first.registered && env.first.success)
    ensures Exists(x.Table(), a) && x.approvals[a].status.ApprovalExecuted? && Finished(x.Table(), a, success)
    ensures x.approvals[a].request == old(x.approvals)[a].request
    ensures x.trace == old(x.trace) + if env.first.registered then [Asked(old(x.approvals)[a])] else []
    ensures Reaches(w, env, old(x.Table()), ApLogApproved(a), x.Table(), Gone)
  {
    hide Reaches, GoRuntime, GoGateway;
    ghost var d := x.Table();
    Here(w, env, d, ApLogApproved(a));
    x.AddEvents([ApprovalApproved]);
    ghost var e := x.Table();
    Then(w, env, d, ApLogApproved(a), d, ApLogApproved(a), e, ApLogStarted(a));
    x.AddEvents([ActionExecutionStarted]);
    ghost var f := x.Table();
    Then(w, env, d, ApLogApproved(a), e, ApLogStarted(a), f, ApInvoke(a));
    success := false;
    if env.first.registered {
      x.Invoke(x.approvals[a].request, x.approvals[a].call);
      success := env.first.success;
    }
    ghost var g := x.Table();
    Then(w, env, d, ApLogApproved(a), f, ApInvoke(a), g, ApOutcome(a, success));
    x.OutcomeRows(a, success);
    Then(w, env, d, ApLogApproved(a), g, ApOutcome(a, success), x.Table(), Gone);
  }

  /** `_resolve`: the whole approve or reject call. */
  method Resolve(x: Execution, w: World, env: Env, a: nat, approve: bool) returns (res: Resolution)
    requires Past(w, env)
    modifies x
    ensures Reaches(w, env, old(x.Table()), ApEnter(a, approve), x.Table(), Gone)
    ensures var d, now := old(x.Table()), env.first.now;
      if !Exists(d, a) then res == NotFound
      else if !d.approvals[a].status.Pending? then res == AlreadyResolved(d.approvals[a].status)
      else if d.approvals[a].expiresAt <= now then res == AlreadyResolved(ApprovalStatus.Expired)
      else if !d.requests[d.approvals[a].request].status.RequiresApproval? || !d.status.WaitingApproval? then
        res == InvalidState
      else if approve then res == WasExecuted(env.first.registered && env.first.success)
      else res == WasRejected
    ensures res.WasExecuted? ==>
      Exists(x.Table(), a) && x.approvals[a].status.ApprovalExecuted? && Finished(x.Table(), a, res.success)
    ensures res.WasRejected? ==>
      Exists(x.Table(), a) && x.approvals[a].status.Rejected? && x.status.Running?
      && x.requests[x.approvals[a].request].status.Denied?
    ensures res.AlreadyResolved? && old(x.approvals)[a].status.Pending? ==>
      Exists(x.Table(), a) && x.approvals[a].status.Expired? && Released(old(x.Table()), x.Table(), a)
    ensures res.NotFound? || res.InvalidState? || (res.AlreadyResolved? && !old(x.approvals)[a].status.Pending?) ==>
      x.Table() == old(x.Table())
    ensures x.trace == old(x.trace) +
      (if res.WasExecuted? then [Grant(a, old(x.approvals)[a])] else []) +
      (if res.WasExecuted? && env.first.registered then [Asked(old(x.approvals)[a])] else [])
  {
    hide Reaches, GoRuntime, GoGateway, GoApRead, ClaimApproval, CommitRejection;
    ghost var d := x.Table();
    ghost var p := ApEnter(a, approve);
    Here(w, env, d, p);
    if a >= |x.approvals| || x.approvals[a].request >= |x.requests| {
      Then(w, env, d, p, d, p, d, Gone);
      return NotFound;
    }
    var now := env.first.now;
    Then(w, env, d, p, d, p, d, ApRead(a, approve, now));
    Entered(w, env, d, a, approve, now);
    LazyExpire(x, w, env, a, now);
    if !x.approvals[a].status.Pending? {
      if old(x.approvals)[a].status.Pending? {
        Chain(w, env, d, p, d, ApExpire(a, now), x.Table(), Gone);
      }
      return AlreadyResolved(x.approvals[a].status);
    }
    var r := x.approvals[a].request;
    if !x.requests[r].status.RequiresApproval? || !x.status.WaitingApproval? {
      Then(w, env, d, p, d, ApCheck(a, approve, now), d, Gone);
      return InvalidState;
    }
    Then(w, env, d, p, d, ApCheck(a, approve, now), d, ApClaim(a, approve, now));
    res := ClaimAndFinish(x, w, env, a, approve, now);
    Chain(w, env, d, p, d, ApClaim(a, approve, now), x.Table(), Gone);
  }

  /** `_resolve` from its compare-and-set on, in whatever state that finds the approval: another call may
      have claimed it since the check. */
  method ClaimAndFinish(x: Execution, w: World, env: Env, a: nat, approve: bool, now: int) returns (res: Resolution)
    requires Exists(x.Table(), a)
    modifies x
    ensures Reaches(w, env, old(x.Table()), ApClaim(a, approve, now), x.Table(), Gone)
    ensures if ApprovalClaimable(old(x.Table()), a, now)
      then if approve then res == WasExecuted(env.first.registered && env.first.success) else res == WasRejected
      else res == AlreadyResolved(old(x.approvals)[a].status) && x.Table() == old(x.Table())
    ensures Exists(x.Table(), a) && x.approvals[a].request == old(x.approvals)[a].request
    ensures res.WasExecuted? ==> x.approvals[a].status.ApprovalExecuted? && Finished(x.Table(), a, res.success)
    ensures res.WasRejected? ==>
      x.approvals[a].status.Rejected? && x.requests[x.approvals[a].request].status.Denied? && x.status.Running?
    ensures x.trace == old(x.trace) +
      (if res.WasExecuted? then [Grant(a, old(x.approvals)[a])] else []) +
      (if res.WasExecuted? && env.first.registered then [Asked(old(x.approvals)[a])] else [])
  {
    hide Reaches, GoRuntime, GoGateway, ClaimApproval, CommitRejection;
    ghost var d, p := x.Table(), ApClaim(a, approve, now);
    Here(w, env, d, p);
    var claimed := x.ClaimResolution(a, approve, now);
    ghost var e := x.Table();
    ClaimedRows(d, a, approve, now);
    if !claimed {
      Then(w, env, d, p, d, p, e, Gone);
      return AlreadyResolved(x.approvals[a].status);
    }
    if !approve {
      Then(w, env, d, p, d, p, e, ApReject(a));
      x.RejectionRows(a);
      Then(w, env, d, p, e, ApReject(a), x.Table(), Gone);
      RejectedRows(e, a);
      return WasRejected;
    }
    Then(w, env, d, p, d, p, e, ApLogApproved(a));
    var success := ExecuteApprovedAction(x, w, env, a);
    Chain(w, env, d, p, e, ApLogApproved(a), x.Table(), Gone);
    return WasExecuted(success);
  }

  /** Where the read of the approval leads. */
  lemma Entered(w: World, env: Env, d: Rows, a: nat, approve: bool, now: int)
    requires Exists(d, a) && Reaches(w, env, d, ApEnter(a, approve), d, ApRead(a, approve, now))
    ensures Reaches(w, env, d, ApEnter(a, approve), d,
                    if !d.approvals[a].status.Pending? then Gone
                    else if d.approvals[a].expiresAt <= now then ApExpire(a, now)
                    else ApCheck(a, approve, now))
  {
    hide Reaches, GoRuntime, GoGateway;
    var out := GoApRead(d, a, approve, now);
    Then(w, env, d, ApEnter(a, approve), d, ApRead(a, approve, now), out.rows, out.pc);
  }

  lemma ClaimedRows(d: Rows, a: nat, approve: bool, now: int)
    requires Exists(d, a)
    ensures var e := ClaimApproval(d, a, approve, now);
      && Exists(e, a) && SameCall(e.approvals[a], d.approvals[a])
      && e.trace == d.trace + (if ApprovalClaimable(d, a, now) && approve then [Grant(a, d.approvals[a])] else [])
      && (!ApprovalClaimable(d, a, now) ==> e == d)
      && (ApprovalClaimable(d, a, now) && !approve ==> e.approvals[a].status.Rejected?)
  {
  }

  lemma RejectedRows(d: Rows, a: nat)
    requires Exists(d, a)
    ensures var e := CommitRejection(d, a);
      && e.approvals == d.approvals && e.trace == d.trace && |e.requests| == |d.requests|
      && e.requests[d.approvals[a].request].status.Denied? && e.status.Running?
  {
  }
}
