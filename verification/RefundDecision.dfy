/** The seeded refund policies and the risk engine together: over all amounts, a larger refund is never
    decided more leniently. */
module RefundDecision {
  import opened Base
  import opened PolicyConditions
  import opened PolicyEngine
  import ClauseOrder
  import Risk = RiskEngine

  // ---------------------------------------------------------------- the seeded rows

  function AmountIs(op: string, value: real): Json {
    Dict(map["field" := Str("arguments.amount"), "operator" := Str(op), "value" := Num(value)])
  }

  function Every(clauses: seq<Json>): Json {
    Dict(map["all" := List(clauses)])
  }

  function Seeded(key: string, tool: nat, action: PolicyAction, conditions: Json): Policy {
    Policy(key, None, Some("support"), tool, 100, true, action, conditions)
  }

  function Autonomous(tool: nat): Policy {
    Seeded("SUPPORT_REFUND_AUTONOMOUS", tool, Allow, Every([AmountIs("lte", 100.0)]))
  }

  function NeedsApproval(tool: nat): Policy {
    Seeded("SUPPORT_REFUND_APPROVAL", tool, RequireApproval, Every([AmountIs("gt", 100.0), AmountIs("lte", 1000.0)]))
  }

  function TooLarge(tool: nat): Policy {
    Seeded("SUPPORT_REFUND_BLOCK", tool, Block, Every([AmountIs("gt", 1000.0)]))
  }

  // ---------------------------------------------------------------- field names

  lemma {:induction false} SplitPlain(s: string)
    requires '.' !in s
    ensures Split(s) == [s]
  {
    if |s| > 0 {
      SplitPlain(s[1..]);
      assert s == [s[0]] + s[1..];
    }
  }

  lemma {:induction false} SplitDot(a: string, b: string)
    requires '.' !in a
    ensures Split(a + "." + b) == [a] + Split(b)
  {
    var s := a + "." + b;
    if |a| == 0 {
      assert s[1..] == b;
    } else {
      SplitDot(a[1..], b);
      assert s[1..] == a[1..] + "." + b;
      assert a == [a[0]] + a[1..];
    }
  }

  /** A call whose `amount` argument, number or numeric string, is worth `x`. */
  predicate Refunds(parse: Parser, context: Json, x: real) {
    && Lookup(context, ["arguments", "amount"]).Some?
    && AsDecimal(parse, Lookup(context, ["arguments", "amount"]).value) == Some(x)
  }

  lemma AmountField(parse: Parser, context: Json, x: real)
    requires Refunds(parse, context, x)
    ensures FieldValue(Str("arguments.amount"), context) == Lookup(context, ["arguments", "amount"])
  {
    hide Split, Lookup;
    assert "arguments.amount" == "arguments" + "." + "amount";
    SplitDot("arguments", "amount");
    SplitPlain("amount");
    assert Split("arguments.amount") == ["arguments", "amount"];
  }

  predicate Holds(op: string, x: real, value: real) {
    if op == "lte" then x <= value else x > value
  }

  lemma ApplyHolds(parse: Parser, op: string, actual: Json, value: real, x: real)
    requires AsDecimal(parse, actual) == Some(x) && (op == "lte" || op == "gt")
    ensures op in {"eq", "neq", "lt", "lte", "gt", "gte", "in"}
    ensures Apply(parse, op, actual, Num(value)) == Is(Holds(op, x, value))
  {
    hide Eq, PyEq;
    assert op[0] != "eq"[0] && op[0] != "neq"[0] && op[0] != "in"[0];
    assert op != "lt" && op != "gte" by { assert op[0] == 'l' ==> |op| == 3; assert op[0] == 'g' ==> |op| == 2; }
  }

  lemma LeafHolds(parse: Parser, op: string, value: real, context: Json, x: real)
    requires Refunds(parse, context, x) && (op == "lte" || op == "gt")
    ensures PolicyConditions.Evaluate(parse, AmountIs(op, value), context) == Is(Holds(op, x, value))
  {
    hide *;
    AmountField(parse, context, x);
    AmountRead(parse, context, x);
    ApplyHolds(parse, op, Lookup(context, ["arguments", "amount"]).value, value, x);
    LeafShape(op, value);
    LeafEvaluates(parse, AmountIs(op, value).fields, op, context);
  }

  lemma AmountRead(parse: Parser, context: Json, x: real)
    requires Refunds(parse, context, x)
    ensures var v := Lookup(context, ["arguments", "amount"]); v.Some? && AsDecimal(parse, v.value) == Some(x)
  {
    hide Lookup;
  }

  lemma LeafShape(op: string, value: real)
    ensures AmountIs(op, value).Dict?
    ensures var leaf := AmountIs(op, value).fields;
      && leaf.Keys == {"field", "operator", "value"}
      && leaf["operator"] == Str(op) && leaf["field"] == Str("arguments.amount") && leaf["value"] == Num(value)
  {
  }

  lemma LeafEvaluates(parse: Parser, leaf: map<string, Json>, op: string, context: Json)
    requires leaf.Keys == {"field", "operator", "value"} && leaf["operator"] == Str(op)
    requires op in {"eq", "neq", "lt", "lte", "gt", "gte", "in"}
    ensures PolicyConditions.Evaluate(parse, Dict(leaf), context) ==
      var actual := FieldValue(leaf["field"], context);
      if actual.None? then Fails else Apply(parse, op, actual.value, leaf["value"])
  {
    LeafKeys(leaf);
    hide Apply, FieldValue, EvaluateAll, EvaluateAny, Combines;
  }

  lemma LeafKeys(leaf: map<string, Json>)
    requires leaf.Keys == {"field", "operator", "value"}
    ensures "all" !in leaf && "any" !in leaf
  {
    Distinct();
  }

  lemma Distinct()
    ensures "all" !in {"field", "operator", "value"} && "any" !in {"field", "operator", "value"} && "all" != "any"
  {
    assert "all"[1] != "any"[1];
  }

  lemma EveryHolds(parse: Parser, cs: seq<Json>, context: Json)
    requires |cs| > 0 && forall i :: 0 <= i < |cs| ==> PolicyConditions.Evaluate(parse, cs[i], context).Is?
    ensures EvaluateConditions(parse, Every(cs), context) ==
      Is(forall i :: 0 <= i < |cs| ==> PolicyConditions.Evaluate(parse, cs[i], context) == Is(true))
  {
    hide PolicyConditions.Evaluate;
    assert Every(cs) != Dict(map[]) by { assert "all" in Every(cs).fields; }
    assert !ClauseOrder.Stop("all") by { assert "all"[1] != "any"[1]; }
    ClauseOrder.NodeExactly(parse, "all", cs, context);
    ClauseOrder.FirstRefuser(parse, cs, true, context);
  }

  // ---------------------------------------------------------------- the policy decision

  function RowFor(tool: nat, x: real): Policy {
    if x <= 100.0 then Autonomous(tool) else if x <= 1000.0 then NeedsApproval(tool) else TooLarge(tool)
  }

  lemma OneClause(parse: Parser, op: string, value: real, context: Json, x: real)
    requires Refunds(parse, context, x) && (op == "lte" || op == "gt")
    ensures EvaluateConditions(parse, Every([AmountIs(op, value)]), context) == Is(Holds(op, x, value))
  {
    hide *;
    LeafHolds(parse, op, value, context, x);
    EveryHolds(parse, [AmountIs(op, value)], context);
    assert PolicyConditions.Evaluate(parse, [AmountIs(op, value)][0], context) == Is(Holds(op, x, value));
  }

  lemma TwoClauses(parse: Parser, context: Json, x: real)
    requires Refunds(parse, context, x)
    ensures EvaluateConditions(parse, Every([AmountIs("gt", 100.0), AmountIs("lte", 1000.0)]), context) ==
      Is(Holds("gt", x, 100.0) && Holds("lte", x, 1000.0))
  {
    hide *;
    LeafHolds(parse, "gt", 100.0, context, x);
    LeafHolds(parse, "lte", 1000.0, context, x);
    var cs := [AmountIs("gt", 100.0), AmountIs("lte", 1000.0)];
    assert PolicyConditions.Evaluate(parse, cs[0], context) == Is(Holds("gt", x, 100.0));
    assert PolicyConditions.Evaluate(parse, cs[1], context) == Is(Holds("lte", x, 1000.0));
    EveryHolds(parse, cs, context);
  }

  ghost predicate SeededFor(rows: set<Policy>, q: Query) {
    && q.agentType == "support"
    && (forall p :: p in rows ==> Rank(p, q) != 1)
    && (forall p :: p in rows && Rank(p, q) == 2 <==>
      p == Autonomous(q.tool) || p == NeedsApproval(q.tool) || p == TooLarge(q.tool))
  }

  /** The three rows by themselves are such a table. */
  lemma SeededTable(q: Query)
    requires q.agentType == "support"
    ensures SeededFor({Autonomous(q.tool), NeedsApproval(q.tool), TooLarge(q.tool)}, q)
  {
    hide Every, AmountIs;
  }

  lemma SeededMatch(parse: Parser, q: Query, x: real)
    requires Refunds(parse, q.context, x)
    ensures Applies(parse, Autonomous(q.tool), q) == Is(x <= 100.0)
    ensures Applies(parse, NeedsApproval(q.tool), q) == Is(100.0 < x <= 1000.0)
    ensures Applies(parse, TooLarge(q.tool), q) == Is(x > 1000.0)
  {
    hide EvaluateConditions, Refunds;
    OneClause(parse, "lte", 100.0, q.context, x);
    TwoClauses(parse, q.context, x);
    OneClause(parse, "gt", 1000.0, q.context, x);
    assert "gt" != "lte";
  }

  /** A rank with one match and no error says what that row says. */
  lemma LoneMatch(parse: Parser, rows: set<Policy>, q: Query, r: nat, row: Policy, action: PolicyAction,
      key: Option<string>)
    requires row in rows && Rank(row, q) == r && Matches(parse, row, q)
    requires forall p :: p in rows && Rank(p, q) == r && p != row ==> Applies(parse, p, q) == Is(false)
    requires RankSays(parse, rows, q, r, action, key)
    ensures Decisive(parse, rows, q, r) && action == row.action && key == Some(row.key)
  {
    hide Applies, Rank, KeyAtMost;
    assert Top(parse, rows, q, r, row);
    forall p | Top(parse, rows, q, r, p) ensures p == row {}
  }

  lemma SaysRankTwo(parse: Parser, rows: set<Policy>, q: Query, row: Policy, action: PolicyAction, key: Option<string>)
    requires forall p :: p in rows ==> Rank(p, q) != 1
    requires row in rows && Rank(row, q) == 2 && Matches(parse, row, q)
    requires Says(parse, rows, q, action, key)
    ensures RankSays(parse, rows, q, 2, action, key)
  {
    hide Applies, Rank, RankSays;
  }

  /** The seeded bands, for every amount and whatever other rows the table holds. */
  lemma SeededDecision(parse: Parser, rows: set<Policy>, q: Query, x: real, action: PolicyAction, key: Option<string>)
    requires SeededFor(rows, q) && Refunds(parse, q.context, x)
    requires Says(parse, rows, q, action, key)
    ensures action == PolicyAt(x) && key == Some(RowFor(q.tool, x).key)
  {
    hide *;
    OnlyRow(parse, rows, q, x);
    SaysRankTwo(parse, rows, q, RowFor(q.tool, x), action, key);
    LoneMatch(parse, rows, q, 2, RowFor(q.tool, x), action, key);
  }

  lemma OnlyRow(parse: Parser, rows: set<Policy>, q: Query, x: real)
    requires SeededFor(rows, q) && Refunds(parse, q.context, x)
    ensures forall p :: p in rows ==> Rank(p, q) != 1
    ensures var row := RowFor(q.tool, x);
      && row in rows && Rank(row, q) == 2 && Matches(parse, row, q) && row.action == PolicyAt(x)
      && forall p :: p in rows && Rank(p, q) == 2 && p != row ==> Applies(parse, p, q) == Is(false)
  {
    SeededMatch(parse, q, x);
    SeededActions(q.tool);
    hide Applies, Rank, Refunds, Autonomous, NeedsApproval, TooLarge;
  }

  lemma SeededActions(tool: nat)
    ensures Autonomous(tool).action == Allow && NeedsApproval(tool).action == RequireApproval &&
      TooLarge(tool).action == Block
  {
  }

  // ---------------------------------------------------------------- the seeded deploys

  function SeededDeploy(key: string, tool: nat, action: PolicyAction): Policy {
    Policy(key, None, Some("devops"), tool, 100, true, action, Dict(map[]))
  }

  /** The one seeded row about this tool and the devops type is `row`; no row about the agent itself. */
  ghost predicate OnlyDeploy(rows: set<Policy>, q: Query, row: Policy) {
    && q.agentType == "devops"
    && (forall o :: o in rows && Concerns(o, q) ==> o.agentId.None?)
    && (forall o :: o in rows && Concerns(o, q) && o.agentType.Some? <==> o == row)
  }

  /** Without a condition, the row decides every deploy: staging goes ahead, production asks. */
  lemma SeededDeploys(parse: Parser, rows: set<Policy>, q: Query, action: PolicyAction, key: Option<string>)
    ensures OnlyDeploy(rows, q, SeededDeploy("DEVOPS_STAGING_DEPLOY", q.tool, Allow)) ==>
      (Says(parse, rows, q, action, key) <==> action == Allow && key == Some("DEVOPS_STAGING_DEPLOY"))
    ensures OnlyDeploy(rows, q, SeededDeploy("DEVOPS_PRODUCTION_DEPLOY", q.tool, RequireApproval)) ==>
      (Says(parse, rows, q, action, key) <==> action == RequireApproval && key == Some("DEVOPS_PRODUCTION_DEPLOY"))
  {
    var s := SeededDeploy("DEVOPS_STAGING_DEPLOY", q.tool, Allow);
    var p := SeededDeploy("DEVOPS_PRODUCTION_DEPLOY", q.tool, RequireApproval);
    if OnlyDeploy(rows, q, s) { DeployDecides(parse, rows, q, s, action, key); }
    if OnlyDeploy(rows, q, p) { DeployDecides(parse, rows, q, p, action, key); }
  }

  lemma DeployDecides(parse: Parser, rows: set<Policy>, q: Query, row: Policy, action: PolicyAction,
                      key: Option<string>)
    requires OnlyDeploy(rows, q, row) && row.conditions == Dict(map[])
    ensures Says(parse, rows, q, action, key) <==> action == row.action && key == Some(row.key)
  {
    NoConditionHolds(parse, row.conditions, q.context);
    assert Matches(parse, row, q);
    hide Matches, Errs, Says, Concerns, KeyAtMost, EvaluateConditions;
    KeysTotal(row.key, row.key);
    assert row in rows && Concerns(row, q);
    assert Wins(parse, rows, q, row) by {
      assert !Errs(parse, row, q) by { MatchIsNoError(parse, row, q); }
    }
    WinnerDecides(parse, rows, q, row, action, key);
  }

  lemma MatchIsNoError(parse: Parser, p: Policy, q: Query)
    requires Matches(parse, p, q)
    ensures !Errs(parse, p, q)
  {
  }

  // ---------------------------------------------------------------- policy and risk together

  function PolicyAt(x: real): PolicyAction {
    if x <= 100.0 then Allow else if x <= 1000.0 then RequireApproval else Block
  }

  /** For all finite amounts x <= y: with the seeded policies, and no detector quieter for y, the final
      decision on y is at least as severe as the one on x. */
  lemma FinalDecisionMonotone(parse: Parser, rows: set<Policy>, q: Query, r: Query, x: real, y: real,
                              a: Risk.Input, b: Risk.Input, p: PolicyAction, k: Option<string>,
                              s: PolicyAction, l: Option<string>)
    requires x <= y && SeededFor(rows, q) && SeededFor(rows, r)
    requires Refunds(parse, q.context, x) && Refunds(parse, r.context, y)
    requires Says(parse, rows, q, p, k) && Says(parse, rows, r, s, l)
    requires a.amount == Risk.Finite(x) && b.amount == Risk.Finite(y) && Risk.NoSafer(a, b)
    ensures AtMost(CombineDecisions(p, Risk.ActionOf(Risk.Score(a))), CombineDecisions(s, Risk.ActionOf(Risk.Score(b))))
  {
    hide Says, SeededFor, Refunds, Risk.Score, Risk.NoSafer;
    SeededDecision(parse, rows, q, x, p, k);
    SeededDecision(parse, rows, r, y, s, l);
    Risk.RiskMonotone(a, b, p, s);
  }

  /** With no other signal the risk engine never escalates a refund: the seeded bands are the decision. */
  lemma QuietRefund(a: Risk.Input, x: real)
    requires a.tool == "refund_payment" && a.amount == Risk.Finite(x) && forall s :: a.findings(s).Quiet?
    ensures CombineDecisions(PolicyAt(x), Risk.ActionOf(Risk.Score(a))) == PolicyAt(x)
  {
    QuietTotal(a, Risk.DETECTORS);
  }

  lemma {:induction false} QuietTotal(a: Risk.Input, detectors: seq<Risk.Signal>)
    requires forall s :: a.findings(s).Quiet?
    requires forall i, j :: 0 <= i < j < |detectors| ==> detectors[i] != detectors[j]
    ensures 0 <= Risk.TotalOf(a, detectors) <= if Risk.FinancialRisk in detectors then 40 else 0
  {
    if |detectors| > 0 {
      QuietTotal(a, detectors[..|detectors| - 1]);
      assert detectors == detectors[..|detectors| - 1] + [detectors[|detectors| - 1]];
    }
  }
}
