/** What a crash between the claim of an approval and the commit of its outcome leaves behind: the
    execution waits for good, and only a cancellation can still move it. */
module Stranded {
  import opened Base
  import opened Rows
  import opened Protocol
  import opened Outstanding

  /** Approval `a` was claimed, its outcome is not committed, and no caller is left to commit it. */
  ghost predicate Stranded(s: State, a: nat) {
    && Inv(s)
    && s.rows.Outstanding(a) && !s.rows.approvals[a].status.Pending?
    && forall x :: x in s.callers ==> OwnsApproval(s.callers[x]) != a
  }

  /** Whoever moves writes neither the approval nor its request. */
  lemma LeavesAlone(d: Rows, p: Pc, out: Out, a: nat)
    requires RowsOk(d) && PcOk(d, p) && LocalOk(d, p, out)
    requires d.Outstanding(a) && !d.approvals[a].status.Pending? && OwnsApproval(p) != a
    ensures out.rows.Outstanding(a) && !out.rows.approvals[a].status.Pending? && OwnsApproval(out.pc) != a
  {
    NotTarget(d, p, a);
    hide Target, RowsOk;
  }

  lemma NotTarget(d: Rows, p: Pc, a: nat)
    requires RowsOk(d) && PcOk(d, p)
    requires d.Outstanding(a) && !d.approvals[a].status.Pending? && OwnsApproval(p) != a
    ensures Target(d, p).1 != a && Target(d, p).0 != d.approvals[a].request && d.approvals[a].request < |d.requests|
  {
  }

  lemma StrandedStays(s: State, a: nat, x: nat, c: Choice)
    requires Stranded(s, a)
    ensures Stranded(Apply(s, x, c), a)
  {
    hide GoLocal, RowsOk, LocalOk, PcOk;
    Keeps(s, x, c);
    if c.Go? && x in s.callers {
      CallerOk(s, x);
      Local(World(s.cfg, s.clock, x), s.rows, s.callers[x], c.o);
      LeavesAlone(s.rows, s.callers[x], GoLocal(World(s.cfg, s.clock, x), s.rows, s.callers[x], c.o), a);
    }
    hide Inv;
  }

  /** Whatever callers do from then on, the approval stays outstanding and the execution is
      WAITING_APPROVAL or CANCELLED: no approve, reject, expiry, step, resume or submission helps. */
  lemma {:induction false} StrandedForever(s: State, a: nat, more: seq<Turn>)
    requires Stranded(s, a)
    ensures Stranded(Run(s, more), a)
    ensures Run(s, more).rows.status.WaitingApproval? || Run(s, more).rows.status.Cancelled?
  {
    hide Apply;
    if |more| > 0 {
      var before, t := more[..|more| - 1], more[|more| - 1];
      StrandedForever(s, a, before);
      StrandedStays(Run(s, before), a, t.who, t.choice);
    }
    OpenStatus(Run(s, more).rows, a);
  }

  lemma AbortStrands(s: State, x: nat)
    requires Inv(s) && x in s.callers && OwnsApproval(s.callers[x]) >= 0
    ensures Stranded(Apply(s, x, Abort), OwnsApproval(s.callers[x]))
  {
    hide GoLocal, PcOk, RowsOk, Apart;
    Keeps(s, x, Abort);
    OwnerClaimed(s, x);
    hide Inv;
  }

  /** And this is what an approver, a rejecter or an expirer leaves that stops after its claim, by a
      crash or an exception, at any point of any run. */
  lemma CrashStrands(cfg: Config, schedule: seq<Turn>, x: nat)
    requires var s := Run(Init(cfg), schedule); x in s.callers && OwnsApproval(s.callers[x]) >= 0
    ensures var s := Run(Init(cfg), schedule);
      Stranded(Apply(s, x, Abort), OwnsApproval(s.callers[x]))
  {
    Holds(cfg, schedule);
    hide *;
    AbortStrands(Run(Init(cfg), schedule), x);
  }

  lemma OwnerClaimed(s: State, x: nat)
    requires Inv(s) && x in s.callers && OwnsApproval(s.callers[x]) >= 0
    ensures var a := OwnsApproval(s.callers[x]);
      && s.rows.Outstanding(a) && !s.rows.approvals[a].status.Pending?
      && forall y :: y in s.callers && y != x ==> OwnsApproval(s.callers[y]) != a
  {
    hide RowsOk;
    assert PcOk(s.rows, s.callers[x]);
    forall y | y in s.callers && y != x ensures OwnsApproval(s.callers[y]) != OwnsApproval(s.callers[x]) {
      assert Apart(s.callers[x], s.callers[y]);
    }
  }

  // ---------------------------------------------------------------- who is not stranded

  /** What the outside answers while an owner finishes: the readings are past and nothing collides. */
  function Finishing(clock: int): Oracle {
    Oracle(clock, DoFail, true, true, PermitDeny, Block, false, Block, 0, true, false)
  }

  /** Transitions that the owner at `pc` still has to make. */
  function ToGo(pc: Pc): nat {
    match pc
    case ApLogApproved(_) => 4
    case ApLogStarted(_) => 3
    case ApInvoke(_) => 2
    case ApOutcome(_, _) => 1
    case ApReject(_) => 1
    case ApExpireRead(_) => 2
    case ApExpireCommit(_, _) => 1
    case _ => 0
  }

  /** One transition of an owner: it resolves the approval, or comes closer to it. */
  lemma OwnerMoves(w: World, d: Rows, p: Pc)
    requires RowsOk(d) && PcOk(d, p) && OwnsApproval(p) >= 0
    ensures var out := GoLocal(w, d, p, Finishing(w.clock));
      if ToGo(p) == 1 then !out.rows.Outstanding(OwnsApproval(p))
      else OwnsApproval(out.pc) == OwnsApproval(p) && ToGo(out.pc) == ToGo(p) - 1
  {
    InRange(d, OwnsApproval(p));
    hide GoGateway, GoRuntime, GoApproval, RowsOk;
    if ToGo(p) == 1 { OwnerCommits(w, d, p); } else { OwnerApproaches(w, d, p); }
  }

  lemma OwnerCommits(w: World, d: Rows, p: Pc)
    requires IsApproval(p) && ToGo(p) == 1 && p.approval < |d.approvals| &&
      d.approvals[p.approval].request < |d.requests|
    ensures !GoApproval(w, d, p, Finishing(w.clock)).rows.Outstanding(p.approval)
  {
  }

  lemma OwnerApproaches(w: World, d: Rows, p: Pc)
    requires IsApproval(p) && ToGo(p) > 1 && p.approval < |d.approvals| &&
      d.approvals[p.approval].request < |d.requests|
    ensures var out := GoApproval(w, d, p, Finishing(w.clock));
      OwnsApproval(out.pc) == p.approval && ToGo(out.pc) == ToGo(p) - 1
  {
  }

  predicate OwnTurns(x: nat, more: seq<Turn>) {
    forall i :: 0 <= i < |more| ==> more[i].who == x && more[i].choice.Go? && !more[i].choice.o.collided
  }

  /** A caller that owns an approval and goes on, alone and without a collision, resolves it in at most
      four transitions. */
  lemma {:induction false} OwnerResolves(s: State, x: nat) returns (more: seq<Turn>)
    requires Inv(s) && x in s.callers && OwnsApproval(s.callers[x]) >= 0
    ensures |more| == ToGo(s.callers[x]) <= 4 && OwnTurns(x, more)
    ensures !Run(s, more).rows.Outstanding(OwnsApproval(s.callers[x]))
    decreases ToGo(s.callers[x])
  {
    hide GoLocal, RowsOk, PcOk, Apart, Run;
    var t := Turn(x, Go(Finishing(s.clock)));
    var s1 := Apply(s, x, t.choice);
    Keeps(s, x, t.choice);
    CallerOk(s, x);
    OwnerMoves(World(s.cfg, s.clock, x), s.rows, s.callers[x]);
    hide Inv;
    if ToGo(s.callers[x]) == 1 {
      more := [t];
      RunOne(s, t);
    } else {
      var rest := OwnerResolves(s1, x);
      more := [t] + rest;
      RunFirst(s, t, rest);
    }
  }

  /** A number that no caller has. */
  lemma {:induction false} SomeoneNew(ids: set<nat>) returns (y: nat)
    ensures y !in ids && forall x :: x in ids ==> x < y
  {
    if ids == {} {
      y := 0;
    } else {
      var x :| x in ids;
      var z := SomeoneNew(ids - {x});
      assert forall w :: w in ids ==> w == x || w in ids - {x};
      y := if x < z then z else x + 1;
    }
  }

  /** A pending approval can always be resolved: whatever the execution's status, a call after the
      deadline expires it. */
  lemma PendingResolves(s: State, a: nat) returns (more: seq<Turn>)
    requires Inv(s) && s.rows.Outstanding(a) && s.rows.approvals[a].status.Pending?
    ensures !Run(s, more).rows.Outstanding(a)
  {
    var y := SomeoneNew(s.callers.Keys);
    var wait: nat := if s.rows.approvals[a].expiresAt > s.clock then s.rows.approvals[a].expiresAt - s.clock else 0;
    var begin := [Turn(y, Tick(wait)), Turn(y, Arrive(ApEnter(a, false)))];
    var s2 := Waited(s, a, y, wait);
    ExpiryClaims(s2, a, y);
    var o := Finishing(s2.clock);
    var claim := [Turn(y, Go(o)), Turn(y, Go(o)), Turn(y, Go(o))];
    var rest := OwnerResolves(Run(s2, claim), y);
    hide *;
    RunConcat(s, begin, claim + rest);
    RunConcat(s2, claim, rest);
    more := begin + (claim + rest);
  }

  /** The deadline has passed, and somebody new asks about the approval. */
  lemma Waited(s: State, a: nat, y: nat, wait: nat) returns (t: State)
    requires Inv(s) && s.rows.Outstanding(a) && s.rows.approvals[a].status.Pending? && y !in s.callers
    requires s.rows.approvals[a].expiresAt <= s.clock + wait
    ensures t == Run(s, [Turn(y, Tick(wait)), Turn(y, Arrive(ApEnter(a, false)))])
    ensures Inv(t) && t.rows == s.rows && t.clock == s.clock + wait && y in t.callers &&
      t.callers[y] == ApEnter(a, false)
  {
    hide GoLocal, RowsOk, PcOk, Apart, Run;
    var first, second := Turn(y, Tick(wait)), Turn(y, Arrive(ApEnter(a, false)));
    Keeps(s, y, first.choice);
    var s1 := Apply(s, y, first.choice);
    Keeps(s1, y, second.choice);
    t := Apply(s1, y, second.choice);
    hide Inv;
    RunFirst(s, first, [second]);
    RunOne(s1, second);
    assert [first] + [second] == [first, second];
  }

  lemma ExpiryClaims(s: State, a: nat, y: nat)
    requires Inv(s) && s.rows.Outstanding(a) && s.rows.approvals[a].status.Pending?
    requires y in s.callers && s.callers[y] == ApEnter(a, false) && s.rows.approvals[a].expiresAt <= s.clock
    ensures var o := Finishing(s.clock);
      var t := Run(s, [Turn(y, Go(o)), Turn(y, Go(o)), Turn(y, Go(o))]);
      Inv(t) && y in t.callers && OwnsApproval(t.callers[y]) == a
  {
    var o := Finishing(s.clock);
    var turn := Turn(y, Go(o));
    CallerOk(s, y);
    InRange(s.rows, a);
    Expires(World(s.cfg, s.clock, y), s.rows, a, o);
    hide RowsOk, PcOk, Apart, GoLocal, Run;
    Keeps(s, y, Go(o));
    var s1 := Apply(s, y, Go(o));
    Keeps(s1, y, Go(o));
    var s2 := Apply(s1, y, Go(o));
    Keeps(s2, y, Go(o));
    hide Inv;
    RunFirst(s, turn, [turn, turn]);
    RunFirst(s1, turn, [turn]);
    RunOne(s2, turn);
    assert [turn] + [turn, turn] == [turn, turn, turn] && [turn] + [turn] == [turn, turn];
  }

  lemma Expires(w: World, d: Rows, a: nat, o: Oracle)
    requires a < |d.approvals| && d.approvals[a].request < |d.requests| && d.approvals[a].status.Pending?
    requires d.approvals[a].expiresAt <= w.clock && o == Finishing(w.clock)
    ensures GoLocal(w, d, ApEnter(a, false), o) == Out(d, ApRead(a, false, w.clock))
    ensures GoLocal(w, d, ApRead(a, false, w.clock), o) == Out(d, ApExpire(a, w.clock))
    ensures GoLocal(w, d, ApExpire(a, w.clock), o).pc == ApExpireRead(a)
  {
    hide GoGateway, GoRuntime;
  }

  ghost predicate Owned(s: State, a: nat) {
    exists x :: x in s.callers && OwnsApproval(s.callers[x]) == a
  }

  /** Exactly when an outstanding approval can still be resolved: while it is pending, or while the
      caller that claimed it is there to commit the outcome. */
  lemma ResolvableExactly(cfg: Config, schedule: seq<Turn>, a: nat)
    requires Run(Init(cfg), schedule).rows.Outstanding(a)
    ensures var s := Run(Init(cfg), schedule);
      (exists more :: !Run(s, more).rows.Outstanding(a)) <==> s.rows.approvals[a].status.Pending? || Owned(s, a)
  {
    Holds(cfg, schedule);
    var s := Run(Init(cfg), schedule);
    hide Run, Inv;
    if s.rows.approvals[a].status.Pending? {
      var more := PendingResolves(s, a);
    } else if Owned(s, a) {
      var x :| x in s.callers && OwnsApproval(s.callers[x]) == a;
      var more := OwnerResolves(s, x);
    } else {
      assert Stranded(s, a);
      forall more ensures Run(s, more).rows.Outstanding(a) { StrandedForever(s, a, more); }
    }
  }
}
