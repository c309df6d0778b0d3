/** An approval is granted or rejected before its deadline, and expires at or after it. */
module Deadlines {
  import opened Base
  import opened Rows
  import opened Protocol
  import Ap = Outstanding

  predicate OnTime(p: Approval) {
    match p.status
    case Pending => p.resolvedAt.None?
    case Expired => p.resolvedAt.Some? && p.resolvedAt.value >= p.expiresAt
    case _ => p.resolvedAt.Some? && p.resolvedAt.value < p.expiresAt
  }

  /** A caller about to expire an approval has read a clock past its deadline. */
  predicate PcOnTime(d: Rows, pc: Pc) {
    pc.ApExpire? ==> pc.approval < |d.approvals| && d.approvals[pc.approval].expiresAt <= pc.now
  }

  ghost predicate Inv(s: State) {
    && Ap.Inv(s)
    && (forall a :: 0 <= a < |s.rows.approvals| ==> OnTime(s.rows.approvals[a]))
    && (forall x :: x in s.callers ==> PcOnTime(s.rows, s.callers[x]))
  }

  /** At most approval `a` is rewritten, on time; deadlines never move. */
  ghost predicate Punctual(d: Rows, e: Rows) {
    && |d.approvals| <= |e.approvals|
    && (forall a :: 0 <= a < |d.approvals| ==> e.approvals[a].expiresAt == d.approvals[a].expiresAt)
    && (forall a :: 0 <= a < |d.approvals| && OnTime(d.approvals[a]) ==> OnTime(e.approvals[a]))
    && (forall a :: |d.approvals| <= a < |e.approvals| ==> OnTime(e.approvals[a]))
  }

  lemma OneApproval(d: Rows, e: Rows, a: nat)
    requires a < |d.approvals| && |e.approvals| == |d.approvals| && e.approvals == d.approvals[a := e.approvals[a]]
    requires e.approvals[a].expiresAt == d.approvals[a].expiresAt && (OnTime(d.approvals[a]) ==> OnTime(e.approvals[a]))
    ensures Punctual(d, e)
  {
  }

  lemma ApprovalLocal(w: World, d: Rows, p: Pc, o: Oracle)
    requires IsApproval(p) && Ap.PcOk(d, p) && PcOnTime(d, p)
    ensures Punctual(d, GoApproval(w, d, p, o).rows) && PcOnTime(d, GoApproval(w, d, p, o).pc)
  {
    hide Punctual;
    var e := GoApproval(w, d, p, o).rows;
    if p.approval < |d.approvals| {
      OneApproval(d, e, p.approval);
    } else {
      SameApprovals(d, e);
    }
  }

  lemma SameApprovals(d: Rows, e: Rows)
    requires e.approvals == d.approvals
    ensures Punctual(d, e)
  {
  }

  lemma GatewayLocal(w: World, d: Rows, p: Pc, o: Oracle)
    requires p.Gateway?
    ensures Punctual(d, GoGateway(w, d, p.since, p.job, p.at, o).rows)
    ensures !GoGateway(w, d, p.since, p.job, p.at, o).pc.ApExpire?
  {
  }

  lemma Local(w: World, d: Rows, p: Pc, o: Oracle)
    requires Ap.PcOk(d, p) && PcOnTime(d, p)
    ensures Punctual(d, GoLocal(w, d, p, o).rows) && PcOnTime(d, GoLocal(w, d, p, o).pc)
  {
    hide Punctual, GoGateway, GoApproval, GoRuntime;
    if p.Gateway? {
      GatewayLocal(w, d, p, o);
    } else if IsApproval(p) {
      ApprovalLocal(w, d, p, o);
    } else if IsOther(p) {
      SameApprovals(d, GoOther(d, p).rows);
    } else {
      RuntimeLocal(w, d, p, o);
      SameApprovals(d, GoRuntime(w, d, p, o).rows);
    }
  }

  lemma RuntimeLocal(w: World, d: Rows, p: Pc, o: Oracle)
    requires IsRuntime(p)
    ensures GoRuntime(w, d, p, o).rows.approvals == d.approvals && !GoRuntime(w, d, p, o).pc.ApExpire?
  {
  }

  lemma Keeps(s: State, x: nat, c: Choice)
    requires Inv(s)
    ensures Inv(Apply(s, x, c))
  {
    hide GoLocal, Ap.Inv, OnTime;
    Ap.Keeps(s, x, c);
    if c.Go? && x in s.callers {
      Ap.CallerOk(s, x);
      Local(World(s.cfg, s.clock, x), s.rows, s.callers[x], c.o);
    }
  }

  lemma {:induction false} Holds(cfg: Config, schedule: seq<Turn>)
    ensures Inv(Run(Init(cfg), schedule))
  {
    if |schedule| > 0 {
      var t := schedule[|schedule| - 1];
      Holds(cfg, schedule[..|schedule| - 1]);
      Keeps(Run(Init(cfg), schedule[..|schedule| - 1]), t.who, t.choice);
    }
  }

  /** In every run: APPROVED, REJECTED and EXECUTED were decided before the deadline, EXPIRED at or
      after it. */
  lemma ResolvedOnTime(cfg: Config, schedule: seq<Turn>, a: nat)
    requires a < |Run(Init(cfg), schedule).rows.approvals|
    ensures OnTime(Run(Init(cfg), schedule).rows.approvals[a])
  {
    Holds(cfg, schedule);
  }

  // ---------------------------------------------------------------- fifteen minutes

  /** Only the gateway adds approvals, one at a time, and it dates them from its clock reading. */
  lemma AddsDated(w: World, d: Rows, p: Pc, o: Oracle)
    requires |GoLocal(w, d, p, o).rows.approvals| > |d.approvals|
    ensures var e := GoLocal(w, d, p, o).rows;
      |e.approvals| == |d.approvals| + 1 && e.approvals[|d.approvals|].expiresAt == o.now + 15 * 60 * 1_000_000
  {
    hide GoRuntime, GoApproval;
    if IsApproval(p) {
      ApprovalsKept(w, d, p, o);
    } else if IsRuntime(p) {
      RuntimeLocal(w, d, p, o);
    }
  }

  lemma ApprovalsKept(w: World, d: Rows, p: Pc, o: Oracle)
    requires IsApproval(p)
    ensures |GoApproval(w, d, p, o).rows.approvals| == |d.approvals|
  {
  }

  lemma {:induction false} DeadlineStays(s: State, more: seq<Turn>, a: nat)
    requires Inv(s) && a < |s.rows.approvals|
    ensures var t := Run(s, more);
      Inv(t) && a < |t.rows.approvals| && t.rows.approvals[a].expiresAt == s.rows.approvals[a].expiresAt
  {
    hide Inv, Apply;
    if |more| > 0 {
      var last := more[|more| - 1];
      DeadlineStays(s, more[..|more| - 1], a);
      Keeps(Run(s, more[..|more| - 1]), last.who, last.choice);
      TurnPunctual(Run(s, more[..|more| - 1]), last.who, last.choice);
    }
  }

  lemma TurnPunctual(s: State, x: nat, c: Choice)
    requires Inv(s)
    ensures Punctual(s.rows, Apply(s, x, c).rows)
  {
    hide GoLocal, OnTime;
    if c.Go? && x in s.callers {
      Ap.CallerOk(s, x);
      hide Ap.Inv;
      Local(World(s.cfg, s.clock, x), s.rows, s.callers[x], c.o);
    }
  }

  /** An approval admitted at `o.now` can be decided, as long as nobody has, at every reading of the clock
      before fifteen minutes later, and at none from then on. */
  lemma FifteenMinutes(cfg: Config, schedule: seq<Turn>, x: nat, o: Oracle, more: seq<Turn>, now: int)
    requires |Apply(Run(Init(cfg), schedule), x, Go(o)).rows.approvals| > |Run(Init(cfg), schedule).rows.approvals|
    ensures var s := Run(Init(cfg), schedule);
      var a, t := |s.rows.approvals|, Run(Apply(s, x, Go(o)), more);
      && a < |t.rows.approvals|
      && (t.rows.approvals[a].status.Pending? ==>
            (ApprovalClaimable(t.rows, a, now) <==> now < o.now + 15 * 60 * 1_000_000))
  {
    var s := Run(Init(cfg), schedule);
    Holds(cfg, schedule);
    Keeps(s, x, Go(o));
    AddsDated(World(s.cfg, s.clock, x), s.rows, s.callers[x], o);
    DeadlineStays(Apply(s, x, Go(o)), more, |s.rows.approvals|);
    hide Inv, Run, GoLocal;
  }
}
