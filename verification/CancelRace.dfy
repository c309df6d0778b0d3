/** A concrete run in which an approval outcome is written over a cancellation: the conditions of
    Replay are not vacuous. */
module CancelRace {
  import opened Base
  import opened Rows
  import opened Chunks
  import opened Protocol
  import opened Replay

  const O: Oracle :=
    Oracle(0, DoCall(Call("refund_payment", "")), true, true, PermitConditional, RequireApproval, true, Allow, 0,
      true, false)

  const J: Job := Job(0, Call("refund_payment", ""), true)

  function GoTurn(x: nat): Turn { Turn(x, Go(O)) }

  /** `n` transitions of caller `x` in a row. */
  function Repeat(x: nat, n: nat): seq<Turn> {
    if n == 0 then [] else Repeat(x, n - 1) + [GoTurn(x)]
  }

  function Snap(cfg: Config, d: Rows, m: map<nat, Pc>): State {
    State(cfg, 0, d, m, 0)
  }

  lemma GoSnap(cfg: Config, d: Rows, m: map<nat, Pc>, x: nat)
    requires x in m
    requires var out := GoLocal(World(cfg, 0, x), d, m[x], O); !Takeover(d, m[x], out)
    ensures var out := GoLocal(World(cfg, 0, x), d, m[x], O);
      Apply(Snap(cfg, d, m), x, Go(O)) == Snap(cfg, out.rows, m[x := out.pc])
  {
    hide GoLocal;
  }

  // The rows after the stepper's commits, in order.
  const Started: Rows := Rows(Running, None, [], [], [], [ExecutionStarted], [])
  const Leased: Rows := Started.(lease := Some(Lease(1, 0)))
  const Inserted: Rows := InsertStep(Leased, 1, ToolCall(J.call))
  const Announced: Rows := Log(Inserted, [StepStarted])
  const Asked: Rows := Log(Announced, [ToolRequested])
  const Checked: Rows := Log(NewRequest(Asked, J.call, PermitConditional, Requested),
    [PermissionChecked, PolicyEvaluationStarted])
  const Ruled: Rows := Log(RecordPolicy(Checked, 0, RequireApproval), PolicyChunk(true, RequireApproval))
  const Assessed: Rows := Log(RecordRisk(Ruled, 0, Allow), RiskChunk(0))
  const Admitted: Rows := Log(AdmitApproval(Assessed, 0, 0), ApprovalChunk(false))
  const Claimed: Rows := ClaimApproval(Admitted, 0, false, 0)

  /** Where the stepper stands after `i` transitions. */
  function Early(i: nat): Out {
    if i == 0 then Out(Started, Entering(Stepper))
    else if i == 1 then Out(Started, Claiming(Stepper))
    else if i == 2 then Out(Leased, Checking(Stepper, 0))
    else if i == 3 then Out(Leased, Loading(Stepper, 0))
    else if i == 4 then Out(Leased, Deciding(Stepper, 0, 0))
    else if i == 5 then Out(Leased, ReadingMax(0, DoCall(J.call), 0))
    else if i == 6 then Out(Leased, Inserting(0, DoCall(J.call), 0, 1))
    else if i == 7 then Out(Inserted, Announcing(0, J))
    else Out(Announced, Gateway(0, J, GwEntry))
  }

  function Late(i: nat): Out {
    if i == 0 then Out(Announced, Gateway(0, J, GwEntry))
    else if i == 1 then Out(Announced, Gateway(0, J, GwRequested))
    else if i == 2 then Out(Asked, Gateway(0, J, GwCheck))
    else if i == 3 then Out(Checked, Gateway(0, J, GwPolicy(0)))
    else if i == 4 then Out(Ruled, Gateway(0, J, GwRisk(0, RequireApproval)))
    else if i == 5 then Out(Assessed, Gateway(0, J, GwApprove(0, false)))
    else Out(Admitted, Finalizing(0, J, ResApproval(0)))
  }

  function Approver(i: nat): Out {
    if i == 0 then Out(Admitted, ApEnter(0, false))
    else if i == 1 then Out(Admitted, ApRead(0, false, 0))
    else if i == 2 then Out(Admitted, ApCheck(0, false, 0))
    else if i == 3 then Out(Admitted, ApClaim(0, false, 0))
    else Out(Claimed, ApReject(0))
  }

  lemma ClaimsAt(w: World, i: nat)
    requires i < 4 && w.clock == 0 && w.me == 1 && w.cfg.maxSteps > 0
    ensures GoLocal(w, Early(i).rows, Early(i).pc, O) == Early(i + 1)
  {
    hide GoGateway, GoApproval, GoInserting, GoRetryInserting, GoResolving, GoClosing, GoFinalizing;
  }

  lemma InsertsAt(w: World, i: nat)
    requires 4 <= i < 8 && w.clock == 0 && w.me == 1 && w.cfg.maxSteps > 0
    ensures GoLocal(w, Early(i).rows, Early(i).pc, O) == Early(i + 1)
  {
    hide GoGateway, GoApproval, GoRetryInserting, GoResolving, GoClosing, GoFinalizing;
  }

  lemma EarlyAt(w: World, i: nat)
    requires i < 8 && w.clock == 0 && w.me == 1 && w.cfg.maxSteps > 0
    ensures GoLocal(w, Early(i).rows, Early(i).pc, O) == Early(i + 1)
  {
    hide *;
    if i < 4 { ClaimsAt(w, i); } else { InsertsAt(w, i); }
  }

  lemma LateAt(w: World, i: nat)
    requires i < 6 && w.clock == 0
    ensures GoLocal(w, Late(i).rows, Late(i).pc, O) == Late(i + 1)
  {
    hide GoRuntime, GoApproval;
  }

  lemma ApproverAt(w: World, i: nat)
    requires i < 4 && w.clock == 0
    ensures GoLocal(w, Approver(i).rows, Approver(i).pc, O) == Approver(i + 1)
  {
    hide GoRuntime, GoGateway;
  }

  /** `n` transitions of caller `x` along `path`. */
  lemma {:induction false} RunPath(cfg: Config, m: map<nat, Pc>, x: nat, path: nat -> Out, n: nat)
    requires forall i :: 0 <= i < n ==>
        && GoLocal(World(cfg, 0, x), path(i).rows, path(i).pc, O) == path(i + 1)
        && !Takeover(path(i).rows, path(i).pc, path(i + 1))
    ensures Run(Snap(cfg, path(0).rows, m[x := path(0).pc]), Repeat(x, n)) ==
      Snap(cfg, path(n).rows, m[x := path(n).pc])
  {
    hide Apply, Snap, GoLocal, Takeover;
    if n > 0 {
      RunPath(cfg, m, x, path, n - 1);
      var r := Repeat(x, n);
      assert r[..|r| - 1] == Repeat(x, n - 1);
      assert path(n - 1 + 1) == path(n);
      MoveSnap(cfg, m, x, path(n - 1), path(n));
    }
  }

  lemma MoveSnap(cfg: Config, m: map<nat, Pc>, x: nat, from: Out, to: Out)
    requires GoLocal(World(cfg, 0, x), from.rows, from.pc, O) == to && !Takeover(from.rows, from.pc, to)
    ensures Apply(Snap(cfg, from.rows, m[x := from.pc]), x, Go(O)) == Snap(cfg, to.rows, m[x := to.pc])
  {
    hide Apply, GoLocal, Takeover;
    GoSnap(cfg, from.rows, m[x := from.pc], x);
    assert m[x := from.pc][x := to.pc] == m[x := to.pc];
  }

  /** The stepper asks for an approval, the approver claims it to reject it, then a cancel commits. */
  function Schedule(): seq<Turn> {
    ((((([GoTurn(0), Turn(1, Arrive(Entering(Stepper)))] + Repeat(1, 8)) + Repeat(1, 6))
       + [Turn(2, Arrive(ApEnter(0, false)))]) + Repeat(2, 4))
     + [Turn(3, Arrive(CxEnter)), GoTurn(3)])
  }

  lemma RunTwo(s: State, t: Turn, u: Turn)
    ensures Run(s, [t, u]) == Apply(Apply(s, t.who, t.choice), u.who, u.choice)
  {
    hide Apply;
    RunOne(s, t);
    assert [t, u][..1] == [t];
  }

  lemma StepperRuns(cfg: Config, m: map<nat, Pc>)
    requires cfg.maxSteps > 0
    ensures Run(Run(Snap(cfg, Started, m[1 := Entering(Stepper)]), Repeat(1, 8)), Repeat(1, 6)) ==
            Snap(cfg, Admitted, m[1 := Finalizing(0, J, ResApproval(0))])
  {
    hide GoLocal, Run;
    forall i | 0 <= i < 8 ensures GoLocal(World(cfg, 0, 1), Early(i).rows, Early(i).pc, O) == Early(i + 1) {
      EarlyAt(World(cfg, 0, 1), i);
    }
    forall i | 0 <= i < 6 ensures GoLocal(World(cfg, 0, 1), Late(i).rows, Late(i).pc, O) == Late(i + 1) {
      LateAt(World(cfg, 0, 1), i);
    }
    RunPath(cfg, m, 1, Early, 8);
    RunPath(cfg, m, 1, Late, 6);
  }

  lemma ApproverRuns(cfg: Config, m: map<nat, Pc>)
    ensures Run(Snap(cfg, Admitted, m[2 := ApEnter(0, false)]), Repeat(2, 4)) == Snap(cfg, Claimed, m[2 := ApReject(0)])
  {
    hide GoLocal, Run;
    forall i | 0 <= i < 4 ensures GoLocal(World(cfg, 0, 2), Approver(i).rows, Approver(i).pc, O) == Approver(i + 1) {
      ApproverAt(World(cfg, 0, 2), i);
    }
    RunPath(cfg, m, 2, Approver, 4);
  }

  lemma BeginRuns(cfg: Config)
    ensures Run(Init(cfg), [GoTurn(0), Turn(1, Arrive(Entering(Stepper)))]) ==
            Snap(cfg, Started, map[0 := Gone][1 := Entering(Stepper)])
  {
    RunTwo(Init(cfg), GoTurn(0), Turn(1, Arrive(Entering(Stepper))));
  }

  lemma CancelRuns(cfg: Config, m: map<nat, Pc>)
    requires 3 !in m
    ensures Run(Snap(cfg, Claimed, m), [Turn(3, Arrive(CxEnter)), GoTurn(3)]) ==
            Snap(cfg, Claimed.(status := Cancelled), m[3 := CxEnter][3 := CxLog])
  {
    RunTwo(Snap(cfg, Claimed, m), Turn(3, Arrive(CxEnter)), GoTurn(3));
  }

  /** The status of a cancelled execution does come back to RUNNING. */
  lemma CancelIsOverwritten(cfg: Config)
    requires cfg.maxSteps > 0
    ensures var s := Run(Init(cfg), Schedule());
      s.rows.status.Cancelled? && WritesOverCancel(s, 2, Go(O)) && Apply(s, 2, Go(O)).rows.status.Running?
  {
    hide Run, GoLocal, ClaimApproval;
    var first := [GoTurn(0), Turn(1, Arrive(Entering(Stepper)))];
    var a, b := first + Repeat(1, 8), first + Repeat(1, 8) + Repeat(1, 6);
    var c := b + [Turn(2, Arrive(ApEnter(0, false)))];
    var m1 := map[0 := Gone][1 := Finalizing(0, J, ResApproval(0))];
    BeginRuns(cfg);
    RunConcat(Init(cfg), first, Repeat(1, 8));
    RunConcat(Init(cfg), a, Repeat(1, 6));
    StepperRuns(cfg, map[0 := Gone]);
    RunConcat(Init(cfg), b, [Turn(2, Arrive(ApEnter(0, false)))]);
    RunOne(Snap(cfg, Admitted, m1), Turn(2, Arrive(ApEnter(0, false))));
    RunConcat(Init(cfg), c, Repeat(2, 4));
    ApproverRuns(cfg, m1);
    RunConcat(Init(cfg), c + Repeat(2, 4), [Turn(3, Arrive(CxEnter)), GoTurn(3)]);
    CancelRuns(cfg, m1[2 := ApReject(0)]);
    Overwrite(cfg, m1[2 := ApReject(0)][3 := CxEnter][3 := CxLog]);
  }

  lemma Overwrite(cfg: Config, m: map<nat, Pc>)
    requires 2 in m && m[2] == ApReject(0)
    ensures var s := Snap(cfg, Claimed.(status := Cancelled), m);
      WritesOverCancel(s, 2, Go(O)) && Apply(s, 2, Go(O)).rows.status.Running?
  {
    hide GoGateway, GoRuntime;
  }
}
