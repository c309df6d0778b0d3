/** When a tool runs on a cancelled execution: exactly when the cancellation was committed after the one
    look that the invoking call takes at the execution's status. */
module LateCancel {
  import opened Base
  import opened Rows
  import opened Protocol
  import Stranded

  /** The call has taken its look and may still invoke or record a tool call. */
  predicate PastLook(pc: Pc) {
    (pc.Gateway? && !pc.at.GwEntry?) || pc.ApClaim? || pc.ApReject? || pc.ApLogApproved? || pc.ApLogStarted? ||
    pc.ApInvoke? || pc.ApOutcome?
  }

  /** The look: the gateway's at its entry, the approval engine's before its claim. */
  predicate Looks(d: Rows, pc: Pc) {
    (pc.Gateway? && pc.at.GwEntry? && GatewayOpen(d.status)) || (pc.ApCheck? && d.status.WaitingApproval?)
  }

  /** Only a look leads past it, and only `cancel` makes an execution CANCELLED. */
  ghost predicate LocalOk(d: Rows, p: Pc, out: Out) {
    && (PastLook(out.pc) && !PastLook(p) ==> Looks(d, p))
    && (out.rows.status.Cancelled? && !d.status.Cancelled? ==> p.CxEnter?)
  }

  lemma RuntimeLocal(w: World, d: Rows, p: Pc, o: Oracle)
    requires IsRuntime(p)
    ensures LocalEntry(p, GoRuntime(w, d, p, o).pc)
    ensures GoRuntime(w, d, p, o).rows.status.Cancelled? ==> d.status.Cancelled?
  {
    hide MaxSequence, SequenceFree, LastWaiting, VerdictOf, PlanOf, LeaseClaimable;
  }

  /** A runtime transition never lands past the look: its gateway calls start at the entry. */
  predicate LocalEntry(p: Pc, q: Pc) {
    PastLook(q) ==> PastLook(p)
  }

  lemma GatewayLocal(w: World, d: Rows, p: Pc, o: Oracle)
    requires p.Gateway?
    ensures LocalOk(d, p, GoGateway(w, d, p.since, p.job, p.at, o))
  {
  }

  lemma ApprovalLocal(w: World, d: Rows, p: Pc, o: Oracle)
    requires IsApproval(p)
    ensures LocalOk(d, p, GoApproval(w, d, p, o))
  {
  }

  lemma Local(w: World, d: Rows, p: Pc, o: Oracle)
    ensures LocalOk(d, p, GoLocal(w, d, p, o))
  {
    hide GoGateway, GoApproval, GoRuntime;
    if p.Gateway? {
      GatewayLocal(w, d, p, o);
    } else if IsApproval(p) {
      ApprovalLocal(w, d, p, o);
    } else if !IsOther(p) {
      RuntimeLocal(w, d, p, o);
    }
  }

  // ---------------------------------------------------------------- along a run

  /** The state after the first `n` turns. */
  function At(cfg: Config, schedule: seq<Turn>, n: nat): State
    requires n <= |schedule|
  {
    Run(Init(cfg), schedule[..n])
  }

  lemma AtNext(cfg: Config, schedule: seq<Turn>, n: nat)
    requires n < |schedule|
    ensures At(cfg, schedule, n + 1) == Apply(At(cfg, schedule, n), schedule[n].who, schedule[n].choice)
  {
    assert schedule[..n + 1][..n] == schedule[..n];
  }

  /** Turn `i` is the look of caller `x`, and `x` has been past it from then until turn `n`. */
  ghost predicate LookedAt(cfg: Config, schedule: seq<Turn>, x: nat, i: nat, n: nat)
    requires n <= |schedule|
  {
    && i < n && schedule[i].who == x && schedule[i].choice.Go?
    && x in At(cfg, schedule, i).callers && Looks(At(cfg, schedule, i).rows, At(cfg, schedule, i).callers[x])
    && forall k :: i < k <= n ==> PastAt(cfg, schedule, x, k)
  }

  ghost predicate PastAt(cfg: Config, schedule: seq<Turn>, x: nat, k: nat)
    requires k <= |schedule|
  {
    x in At(cfg, schedule, k).callers && PastLook(At(cfg, schedule, k).callers[x])
  }

  lemma {:induction false} FindLook(cfg: Config, schedule: seq<Turn>, x: nat, n: nat) returns (i: nat)
    requires n <= |schedule| && PastAt(cfg, schedule, x, n)
    ensures LookedAt(cfg, schedule, x, i, n)
  {
    hide GoLocal, PastLook, Looks;
    if n == 0 {
      StartsBefore(cfg, schedule, x);
    } else {
      var s := At(cfg, schedule, n - 1);
      var t := schedule[n - 1];
      AtNext(cfg, schedule, n - 1);
      Turned(s, x, t);
      hide At;
      if PastAt(cfg, schedule, x, n - 1) {
        i := FindLook(cfg, schedule, x, n - 1);
      } else {
        i := n - 1;
      }
    }
  }

  lemma StartsBefore(cfg: Config, schedule: seq<Turn>, x: nat)
    ensures !PastAt(cfg, schedule, x, 0)
  {
    assert schedule[..0] == [];
  }

  /** Who is past the look after a turn was so before, or has just looked. */
  lemma Turned(s: State, x: nat, t: Turn)
    ensures var u := Apply(s, t.who, t.choice);
      && (x in u.callers && PastLook(u.callers[x]) ==>
            x in s.callers && (PastLook(s.callers[x]) || (t.who == x && t.choice.Go? && Looks(s.rows, s.callers[x]))))
      && (u.rows.status.Cancelled? && !s.rows.status.Cancelled? ==> CancelsAt(s, t))
  {
    hide GoLocal;
    if t.choice.Go? && t.who in s.callers {
      Local(World(s.cfg, s.clock, t.who), s.rows, s.callers[t.who], t.choice.o);
    }
  }

  /** The turn commits a cancellation, or would if the execution could be cancelled. */
  predicate CancelsAt(s: State, t: Turn) {
    t.choice.Go? && t.who in s.callers && s.callers[t.who].CxEnter?
  }

  /** Turn `j` commits a cancellation that stands until turn `n`. */
  ghost predicate CancelledAt(cfg: Config, schedule: seq<Turn>, j: nat, n: nat)
    requires n <= |schedule|
  {
    && j < n && CancelsAt(At(cfg, schedule, j), schedule[j]) && !At(cfg, schedule, j).rows.status.Cancelled?
    && forall k :: j < k <= n ==> At(cfg, schedule, k).rows.status.Cancelled?
  }

  lemma {:induction false} FindCancel(cfg: Config, schedule: seq<Turn>, i: nat, n: nat) returns (j: nat)
    requires i <= n <= |schedule|
    requires !At(cfg, schedule, i).rows.status.Cancelled? && At(cfg, schedule, n).rows.status.Cancelled?
    ensures i <= j && CancelledAt(cfg, schedule, j, n)
    decreases n
  {
    hide GoLocal;
    AtNext(cfg, schedule, n - 1);
    Turned(At(cfg, schedule, n - 1), 0, schedule[n - 1]);
    hide At, Apply;
    if At(cfg, schedule, n - 1).rows.status.Cancelled? {
      j := FindCancel(cfg, schedule, i, n - 1);
    } else {
      j := n - 1;
    }
  }

  lemma OpenLook(d: Rows, pc: Pc)
    requires Looks(d, pc)
    ensures !d.status.Cancelled? && !pc.CxEnter? && !PastLook(pc)
  {
  }

  ghost predicate SomeCancel(cfg: Config, schedule: seq<Turn>, i: nat) {
    exists j :: i < j && CancelledAt(cfg, schedule, j, |schedule|)
  }

  /** A call on its way to invoke its tool has looked at the status, once, and saw the execution neither
      cancelled nor otherwise closed.  The execution is CANCELLED now if and only if a cancellation was
      committed after that look, and stands. */
  lemma EffectAfterCancel(cfg: Config, schedule: seq<Turn>, x: nat)
    requires PastAt(cfg, schedule, x, |schedule|)
    ensures exists i :: LookedAt(cfg, schedule, x, i, |schedule|)
    ensures forall i :: LookedAt(cfg, schedule, x, i, |schedule|) ==>
      (Run(Init(cfg), schedule).rows.status.Cancelled? <==> SomeCancel(cfg, schedule, i))
  {
    var n := |schedule|;
    assert schedule[..n] == schedule;
    var first := FindLook(cfg, schedule, x, n);
    forall i | LookedAt(cfg, schedule, x, i, n)
      ensures At(cfg, schedule, n).rows.status.Cancelled? <==> SomeCancel(cfg, schedule, i)
    {
      SinceLook(cfg, schedule, x, i);
    }
    hide LookedAt, SomeCancel;
  }

  lemma SinceLook(cfg: Config, schedule: seq<Turn>, x: nat, i: nat)
    requires LookedAt(cfg, schedule, x, i, |schedule|)
    ensures At(cfg, schedule, |schedule|).rows.status.Cancelled? <==> SomeCancel(cfg, schedule, i)
  {
    hide At, Looks, PastLook;
    OpenLook(At(cfg, schedule, i).rows, At(cfg, schedule, i).callers[x]);
    if At(cfg, schedule, |schedule|).rows.status.Cancelled? {
      var j := FindCancel(cfg, schedule, i, |schedule|);
      assert j != i;
    }
  }

  /** And it happens: wherever a call is about to invoke, a cancellation can still be committed first. */
  lemma CancelCanComeFirst(s: State, x: nat) returns (more: seq<Turn>)
    requires x in s.callers && PastLook(s.callers[x]) && Cancellable(s.rows)
    ensures var t := Run(s, more);
      t.rows == s.rows.(status := Cancelled) && x in t.callers && t.callers[x] == s.callers[x]
  {
    var y := Stranded.SomeoneNew(s.callers.Keys);
    var arrive, go := Turn(y, Arrive(CxEnter)), Turn(y, Go(Stranded.Finishing(s.clock)));
    more := [arrive] + [go];
    RunFirst(s, arrive, [go]);
    RunOne(Apply(s, y, arrive.choice), go);
    hide Run, GoGateway, GoApproval, GoRuntime;
  }
}
