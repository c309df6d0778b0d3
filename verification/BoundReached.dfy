/** The step bound is met: a read-only call that fails and is retried on the last free step, and the
    step that records the bound, make MAX_EXECUTION_STEPS + 2. */
module BoundReached {
  import opened Base
  import opened Rows
  import opened Chunks
  import opened Protocol
  import opened Alone
  import CR = CancelRace
  import SB = StepBound
  import Le = Leases

  const CALL: Call := Call("read_customer", "")

  const FIRST: Oracle := Oracle(0, DoCall(CALL), false, true, PermitAllow, Allow, true, Allow, 0, true, false)

  /** The first attempt fails, its retry succeeds. */
  const ENV: Env := Env(FIRST, FIRST.(registered := true))

  const J: Job := Job(0, CALL, true)
  const K: Job := Job(1, CALL, false)

  /** One step may be taken before the bound applies. */
  function Cfg(ttl: nat): Config {
    Config(1, ttl, {"read_customer"})
  }

  // The rows after the first caller's commits, in order.
  const Started: Rows := Rows(Running, None, [], [], [], [ExecutionStarted], [])
  const Leased: Rows := Started.(lease := Some(Lease(1, 0)))
  const Inserted: Rows := InsertStep(Leased, 1, ToolCall(CALL))
  const Announced: Rows := Log(Inserted, [StepStarted])
  const Asked: Rows := Log(Announced, [ToolRequested])
  const Unknown: Rows := Log(NewRequest(Asked, CALL, PermitDeny, RequestFailed), [ToolFailed])
  const FailedOnce: Rows := SetStep(Unknown, 0, StepFailed, None)
  const Retried: Rows := InsertStep(FailedOnce, 2, ToolCall(CALL))
  const AskedAgain: Rows := Log(Retried, [ToolRequested])
  const Permitted: Rows := Log(NewRequest(AskedAgain, CALL, PermitAllow, Requested), [PermissionChecked])
  const Assessed: Rows := Log(RecordRisk(RecordPolicy(Permitted, 1, Allow), 1, Allow), RiskChunk(0))
  const Allowed: Rows := Log(Assessed, [ActionAllowed])
  const Ran: Rows := Trace(Allowed, Invoked(1, CALL))
  const Recorded: Rows := Log(SetRequestStatus(Ran, 1, Executed), [ToolExecuted])
  const Finished: Rows := FinalizeStep(Recorded, 1, StepCompleted, None, StepFinished)
  const Freed: Rows := Finished.(lease := None)
  const LeasedAgain: Rows := Freed.(lease := Some(Lease(2, 0)))
  const Full: Rows := InsertStep(LeasedAgain, 3, MaxStepsStep)

  function Early(i: nat): Out {
    if i == 0 then Out(Started, Entering(Stepper))
    else if i == 1 then Out(Started, Claiming(Stepper))
    else if i == 2 then Out(Leased, Checking(Stepper, 0))
    else if i == 3 then Out(Leased, Loading(Stepper, 0))
    else if i == 4 then Out(Leased, Deciding(Stepper, 0, 0))
    else if i == 5 then Out(Leased, ReadingMax(0, DoCall(CALL), 0))
    else if i == 6 then Out(Leased, Inserting(0, DoCall(CALL), 0, 1))
    else if i == 7 then Out(Inserted, Announcing(0, J))
    else Out(Announced, Gateway(0, J, GwEntry))
  }

  function Failing(i: nat): Out {
    if i == 0 then Out(Announced, Gateway(0, J, GwEntry))
    else if i == 1 then Out(Announced, Gateway(0, J, GwRequested))
    else if i == 2 then Out(Asked, Gateway(0, J, GwCheck))
    else if i == 3 then Out(Unknown, Finalizing(0, J, ResFailed))
    else if i == 4 then Out(FailedOnce, RetryReadingMax(0, J))
    else if i == 5 then Out(FailedOnce, RetryInserting(0, J, 2))
    else Out(Retried, Gateway(0, K, GwEntry))
  }

  function Retrying(i: nat): Out {
    if i == 0 then Out(Retried, Gateway(0, K, GwEntry))
    else if i == 1 then Out(Retried, Gateway(0, K, GwRequested))
    else if i == 2 then Out(AskedAgain, Gateway(0, K, GwCheck))
    else if i == 3 then Out(Permitted, Gateway(0, K, GwRisk(1, Allow)))
    else if i == 4 then Out(Assessed, Gateway(0, K, GwAllow(1)))
    else if i == 5 then Out(Allowed, Gateway(0, K, GwInvoke(1)))
    else if i == 6 then Out(Ran, Gateway(0, K, GwRecord(1, true)))
    else if i == 7 then Out(Recorded, Finalizing(0, K, ResExecuted(1)))
    else if i == 8 then Out(Finished, Releasing)
    else Out(Freed, Gone)
  }

  function Capping(i: nat): Out {
    if i == 0 then Out(Freed, Entering(Stepper))
    else if i == 1 then Out(Freed, Claiming(Stepper))
    else if i == 2 then Out(LeasedAgain, Checking(Stepper, 0))
    else if i == 3 then Out(LeasedAgain, Loading(Stepper, 0))
    else if i == 4 then Out(LeasedAgain, Deciding(Stepper, 0, 2))
    else if i == 5 then Out(LeasedAgain, ReadingMax(0, DoMaxSteps, 2))
    else if i == 6 then Out(LeasedAgain, Inserting(0, DoMaxSteps, 2, 3))
    else Out(Full, Closing(0, 2, DoMaxSteps))
  }

  /** Along `path` the call moves as the machine says, without taking over a lease. */
  ghost predicate Follows(w: World, path: nat -> Out, n: nat) {
    forall i :: 0 <= i < n ==> Moves(w, path, i)
  }

  predicate Moves(w: World, path: nat -> Out, i: nat) {
    && GoLocal(w, path(i).rows, path(i).pc, Answer(ENV, path(i).pc)) == path(i + 1)
    && !Takeover(path(i).rows, path(i).pc, path(i + 1))
  }

  lemma EarlyMoves(w: World, i: nat)
    requires i < 8 && w.clock == 0 && w.me == 1 && w.cfg.maxSteps == 1
    ensures Moves(w, Early, i)
  {
    hide GoGateway, GoApproval;
  }

  lemma Numbers()
    ensures SB.Numbered(FailedOnce.steps) && |FailedOnce.steps| == 1 && SB.Numbered(LeasedAgain.steps) &&
      |LeasedAgain.steps| == 2
    ensures MaxSequence(FailedOnce.steps) == 1 && MaxSequence(LeasedAgain.steps) == 2
    ensures SequenceFree(FailedOnce.steps, 2) && SequenceFree(LeasedAgain.steps, 3)
  {
    SB.MaxIsLength(FailedOnce.steps);
    SB.MaxIsLength(LeasedAgain.steps);
  }

  lemma FailingMoves(w: World, i: nat)
    requires i < 6 && w.clock == 0 && w.cfg.readOnly == {"read_customer"}
    ensures Moves(w, Failing, i)
  {
    Numbers();
    hide GoApproval, MaxSequence, SequenceFree;
  }

  lemma GatewayMoves(w: World, i: nat)
    requires i < 7 && w.clock == 0
    ensures Moves(w, Retrying, i)
  {
    hide GoApproval, GoRuntime;
  }

  lemma FinalMoves(w: World, i: nat)
    requires 7 <= i < 9 && w.clock == 0 && w.me == 1
    ensures Moves(w, Retrying, i)
  {
    hide GoApproval, GoGateway;
  }

  lemma CappingMoves(w: World, i: nat)
    requires i < 7 && w.clock == 0 && w.me == 2 && w.cfg.maxSteps == 1
    ensures Moves(w, Capping, i)
  {
    Numbers();
    hide GoGateway, GoApproval, MaxSequence, SequenceFree;
  }

  // ---------------------------------------------------------------- the schedule

  /** `n` turns of caller `x` along `path`. */
  function Turns(x: nat, path: nat -> Out, n: nat): seq<Turn> {
    if n == 0 then [] else Turns(x, path, n - 1) + [Turn(x, Go(Answer(ENV, path(n - 1).pc)))]
  }

  lemma MoveSnap(cfg: Config, m: map<nat, Pc>, x: nat, path: nat -> Out, i: nat, next: nat)
    requires Moves(World(cfg, 0, x), path, i) && next == i + 1
    ensures Apply(CR.Snap(cfg, path(i).rows, m[x := path(i).pc]), x, Go(Answer(ENV, path(i).pc)))
         == CR.Snap(cfg, path(next).rows, m[x := path(next).pc])
  {
    hide GoLocal, Takeover, Answer;
    assert m[x := path(i).pc][x := path(next).pc] == m[x := path(next).pc];
  }

  lemma {:induction false} TurnsRun(cfg: Config, m: map<nat, Pc>, x: nat, path: nat -> Out, n: nat)
    requires Follows(World(cfg, 0, x), path, n)
    ensures Run(CR.Snap(cfg, path(0).rows, m[x := path(0).pc]), Turns(x, path, n)) ==
      CR.Snap(cfg, path(n).rows, m[x := path(n).pc])
  {
    hide Moves, Apply, CR.Snap, Answer;
    if n > 0 {
      TurnsRun(cfg, m, x, path, n - 1);
      MoveSnap(cfg, m, x, path, n - 1, n);
      var r := Turns(x, path, n);
      assert r[..|r| - 1] == Turns(x, path, n - 1);
    }
  }

  function Schedule(): seq<Turn> {
    ((((([CR.GoTurn(0), Turn(1, Arrive(Entering(Stepper)))] + Turns(1, Early, 8)) + Turns(1, Failing, 6)) +
      Turns(1, Retrying, 9))
      + [Turn(2, Arrive(Entering(Stepper)))]) + Turns(2, Capping, 7))
  }

  lemma FirstCall(cfg: Config)
    requires cfg.maxSteps == 1 && cfg.readOnly == {"read_customer"}
    ensures var s := CR.Snap(cfg, Started, map[0 := Gone][1 := Entering(Stepper)]);
      Run(Run(Run(s, Turns(1, Early, 8)), Turns(1, Failing, 6)), Turns(1, Retrying, 9))
      == CR.Snap(cfg, Freed, map[0 := Gone][1 := Gone])
  {
    var w := World(cfg, 0, 1);
    hide GoLocal, Run, Turns, Moves;
    forall i | 0 <= i < 8 ensures Moves(w, Early, i) { EarlyMoves(w, i); }
    forall i | 0 <= i < 6 ensures Moves(w, Failing, i) { FailingMoves(w, i); }
    forall i | 0 <= i < 9 ensures Moves(w, Retrying, i) {
      if i < 7 { GatewayMoves(w, i); } else { FinalMoves(w, i); }
    }
    TurnsRun(cfg, map[0 := Gone], 1, Early, 8);
    TurnsRun(cfg, map[0 := Gone], 1, Failing, 6);
    TurnsRun(cfg, map[0 := Gone], 1, Retrying, 9);
  }

  lemma SecondCall(cfg: Config, m: map<nat, Pc>)
    requires cfg.maxSteps == 1
    ensures Run(CR.Snap(cfg, Freed, m[2 := Entering(Stepper)]), Turns(2, Capping, 7)) ==
      CR.Snap(cfg, Full, m[2 := Closing(0, 2, DoMaxSteps)])
  {
    var w := World(cfg, 0, 2);
    hide GoLocal, Run, Turns, Moves;
    forall i | 0 <= i < 7 ensures Moves(w, Capping, i) { CappingMoves(w, i); }
    TurnsRun(cfg, m, 2, Capping, 7);
  }

  lemma FullSteps()
    ensures |Full.steps| == 3
  {
  }

  /** At time 0 every lease is fresh. */
  ghost predicate Timeless(schedule: seq<Turn>) {
    forall i :: 0 <= i < |schedule| ==> TimelessTurn(schedule[i].choice)
  }

  predicate TimelessTurn(c: Choice) {
    c.Arrive? || (c.Go? && c.o.now == 0)
  }

  lemma {:induction false} TimelessIsTimely(cfg: Config, schedule: seq<Turn>)
    requires Timeless(schedule)
    ensures SB.TimelyRun(Init(cfg), schedule)
    ensures var s := Run(Init(cfg), schedule);
      s.clock == 0 && forall x :: x in s.callers && InSection(s.callers[x]) ==> Le.Since(s.callers[x]) == 0
  {
    hide GoLocal;
    if |schedule| > 0 {
      var before, t := schedule[..|schedule| - 1], schedule[|schedule| - 1];
      TimelessIsTimely(cfg, before);
      var s := Run(Init(cfg), before);
      if t.choice.Go? && t.who in s.callers {
        Le.Local(World(s.cfg, s.clock, t.who), s.rows, s.callers[t.who], t.choice.o);
        ClaimsNow(World(s.cfg, s.clock, t.who), s.rows, s.callers[t.who], t.choice.o);
      }
    }
  }

  lemma ClaimsNow(w: World, d: Rows, p: Pc, o: Oracle)
    ensures var out := GoLocal(w, d, p, o); p.Claiming? && out.pc.Checking? ==> out.pc.since == o.now
  {
    hide GoGateway, GoApproval;
  }

  lemma {:induction false} TurnsTimeless(x: nat, path: nat -> Out, n: nat)
    ensures Timeless(Turns(x, path, n))
  {
    if n > 0 { TurnsTimeless(x, path, n - 1); }
  }

  /** What the schedule comes to, call by call. */
  lemma ScheduleRuns(cfg: Config)
    requires cfg.maxSteps == 1 && cfg.readOnly == {"read_customer"}
    ensures Run(Init(cfg), Schedule()) == CR.Snap(cfg, Full, map[0 := Gone][1 := Gone][2 := Closing(0, 2, DoMaxSteps)])
  {
    var first, m := [CR.GoTurn(0), Turn(1, Arrive(Entering(Stepper)))], map[0 := Gone][1 := Gone];
    var a := first + Turns(1, Early, 8);
    var b := a + Turns(1, Failing, 6);
    var c := b + Turns(1, Retrying, 9);
    var arrive := [Turn(2, Arrive(Entering(Stepper)))];
    hide *;
    ScheduleShape();
    CR.BeginRuns(cfg);
    BeginSnap(cfg);
    RunConcat(Init(cfg), first, Turns(1, Early, 8));
    RunConcat(Init(cfg), a, Turns(1, Failing, 6));
    RunConcat(Init(cfg), b, Turns(1, Retrying, 9));
    FirstCall(cfg);
    RunConcat(Init(cfg), c, arrive);
    ArriveSnap(cfg, m);
    RunConcat(Init(cfg), c + arrive, Turns(2, Capping, 7));
    SecondCall(cfg, m);
  }

  lemma ScheduleShape()
    ensures Schedule() ==
      ((((([CR.GoTurn(0), Turn(1, Arrive(Entering(Stepper)))] + Turns(1, Early, 8)) + Turns(1, Failing, 6)) +
        Turns(1, Retrying, 9))
        + [Turn(2, Arrive(Entering(Stepper)))]) + Turns(2, Capping, 7))
  {
    hide Turns;
  }

  lemma BeginSnap(cfg: Config)
    ensures CR.Snap(cfg, CR.Started, map[0 := Gone][1 := Entering(Stepper)]) ==
      CR.Snap(cfg, Started, map[0 := Gone][1 := Entering(Stepper)])
  {
  }

  lemma ArriveSnap(cfg: Config, m: map<nat, Pc>)
    requires 2 !in m
    ensures Run(CR.Snap(cfg, Freed, m), [Turn(2, Arrive(Entering(Stepper)))]) ==
      CR.Snap(cfg, Freed, m[2 := Entering(Stepper)])
  {
    RunOne(CR.Snap(cfg, Freed, m), Turn(2, Arrive(Entering(Stepper))));
    hide Run;
  }

  lemma TimelessConcat(a: seq<Turn>, b: seq<Turn>)
    requires Timeless(a) && Timeless(b)
    ensures Timeless(a + b)
  {
  }

  lemma ScheduleTimeless()
    ensures Timeless(Schedule())
  {
    var first, arrive := [CR.GoTurn(0), Turn(1, Arrive(Entering(Stepper)))], [Turn(2, Arrive(Entering(Stepper)))];
    assert Timeless(first) && Timeless(arrive);
    hide *;
    ScheduleShape();
    var a := first + Turns(1, Early, 8);
    var b := a + Turns(1, Failing, 6);
    var c := b + Turns(1, Retrying, 9);
    TurnsTimeless(1, Early, 8);
    TurnsTimeless(1, Failing, 6);
    TurnsTimeless(1, Retrying, 9);
    TurnsTimeless(2, Capping, 7);
    TimelessConcat(first, Turns(1, Early, 8));
    TimelessConcat(a, Turns(1, Failing, 6));
    TimelessConcat(b, Turns(1, Retrying, 9));
    TimelessConcat(c, arrive);
    TimelessConcat(c + arrive, Turns(2, Capping, 7));
  }

  /** No exception, no takeover, every lease in time, and the number of steps is the bound. */
  lemma ExcessIsReal(ttl: nat)
    ensures SB.TimelyRun(Init(Cfg(ttl)), Schedule())
    ensures var s := Run(Init(Cfg(ttl)), Schedule());
      s.aborted == 0 && |s.rows.steps| == Cfg(ttl).maxSteps + 2
  {
    hide Run, Schedule, SB.TimelyRun, Timeless;
    ScheduleTimeless();
    TimelessIsTimely(Cfg(ttl), Schedule());
    ScheduleRuns(Cfg(ttl));
    FullSteps();
  }
}
