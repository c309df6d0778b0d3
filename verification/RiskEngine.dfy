/** The risk engine: additive scoring over detectors that may fail, clamping, bands, hard blocks. */
module RiskEngine {
  import opened Base

  datatype Signal =
    | PromptInjection | PrivilegeEscalation | DataExfiltration | ScopeDeviation | FinancialRisk
    | SensitiveDataAccess | DestructiveAction | ExternalCommunication | UnusualToolSequence

  const DETECTORS: seq<Signal> :=
    [PromptInjection, PrivilegeEscalation, DataExfiltration, ScopeDeviation, FinancialRisk,
     SensitiveDataAccess, DestructiveAction, ExternalCommunication, UnusualToolSequence]

  /** What one detector did. */
  datatype Finding = Quiet | Fired | Broken

  /** The `amount` argument as `Decimal(str(...))` reads it. */
  datatype Amount = Absent | Malformed | NotANumber | NegativeInfinity | Finite(value: real) | Infinity

  /** `findings` answers for every detector but the financial one. */
  datatype Input = Input(tool: string, amount: Amount, findings: Signal -> Finding)

  datatype Level = Low | Medium | High | Critical

  datatype Assessment = Assessment(score: int, level: Level, signals: seq<Signal>, action: PolicyAction)

  // ---------------------------------------------------------------- risk_config.py

  const FINANCIAL_RISK_BANDS: seq<(real, int)> := [(100.0, 10), (1000.0, 25)]
  const FINANCIAL_RISK_ABOVE_MAX: int := 40
  const RISK_LEVEL_BANDS: seq<(int, Level)> := [(29, Low), (59, Medium), (84, High), (100, Critical)]
  const MEDIUM_REQUIRE_APPROVAL_THRESHOLD: int := 45

  function SignalWeight(s: Signal): int {
    match s
    case PromptInjection => 60
    case DataExfiltration => 50
    case PrivilegeEscalation => 50
    case DestructiveAction => 40
    case SensitiveDataAccess => 35
    case ScopeDeviation => 35
    case ExternalCommunication => 20
    case UnusualToolSequence => 20
    case FinancialRisk => 0 // by amount instead
  }

  // ---------------------------------------------------------------- the financial detector

  /** `amount <= threshold` where that comparison is defined. */
  predicate WithinBand(amount: Amount, threshold: real) {
    amount.NegativeInfinity? || (amount.Finite? && amount.value <= threshold)
  }

  /** Comparing a NaN raises inside the detector. */
  function FinancialFinding(inp: Input): Finding {
    if inp.tool != "refund_payment" || inp.amount.Absent? || inp.amount.Malformed? then Quiet
    else if inp.amount.NotANumber? then Broken
    else Fired
  }

  /** What a refund of this amount weighs. */
  function FinancialWeight(amount: Amount): int {
    if WithinBand(amount, 100.0) then 10 else if WithinBand(amount, 1000.0) then 25 else 40
  }

  /** `financial_risk_weight`: the first band that holds the amount. */
  method FinancialRiskWeight(inp: Input) returns (weight: int)
    ensures weight == if FinancialFinding(inp).Quiet? then 0 else FinancialWeight(inp.amount)
  {
    if inp.tool != "refund_payment" || inp.amount.Absent? || inp.amount.Malformed? { return 0; }
    for i := 0 to |FINANCIAL_RISK_BANDS|
      invariant forall k :: 0 <= k < i ==> !WithinBand(inp.amount, FINANCIAL_RISK_BANDS[k].0)
    {
      assert i == 1 ==> !WithinBand(inp.amount, FINANCIAL_RISK_BANDS[0].0);
      if WithinBand(inp.amount, FINANCIAL_RISK_BANDS[i].0) { return FINANCIAL_RISK_BANDS[i].1; }
    }
    assert !WithinBand(inp.amount, FINANCIAL_RISK_BANDS[0].0) && !WithinBand(inp.amount, FINANCIAL_RISK_BANDS[1].0);
    return FINANCIAL_RISK_ABOVE_MAX;
  }

  function FindingOf(inp: Input, s: Signal): Finding {
    if s.FinancialRisk? then FinancialFinding(inp) else inp.findings(s)
  }

  function WeightOf(inp: Input, s: Signal): int {
    if !FindingOf(inp, s).Fired? then 0
    else if s.FinancialRisk? then FinancialWeight(inp.amount)
    else SignalWeight(s)
  }

  // ---------------------------------------------------------------- levels and actions

  /** `_risk_level_for_score`: the first band whose ceiling is not below the score. */
  function LevelIn(bands: seq<(int, Level)>, score: int): Level {
    if |bands| == 0 then Critical else if score <= bands[0].0 then bands[0].1 else LevelIn(bands[1..], score)
  }

  function RiskLevelForScore(score: int): Level {
    LevelIn(RISK_LEVEL_BANDS, score)
  }

  function RecommendedActionFor(score: int, level: Level): PolicyAction {
    match level
    case Low => Allow
    case Medium => if score >= MEDIUM_REQUIRE_APPROVAL_THRESHOLD then RequireApproval else Allow
    case High => RequireApproval
    case Critical => Block
  }

  // ---------------------------------------------------------------- what an assessment means

  function TotalOf(inp: Input, detectors: seq<Signal>): int {
    if |detectors| == 0 then 0
    else TotalOf(inp, detectors[..|detectors| - 1]) + WeightOf(inp, detectors[|detectors| - 1])
  }

  function FiredIn(inp: Input, detectors: seq<Signal>): seq<Signal> {
    if |detectors| == 0 then []
    else
      FiredIn(inp, detectors[..|detectors| - 1]) +
      (if FindingOf(inp, detectors[|detectors| - 1]).Fired? then [detectors[|detectors| - 1]] else [])
  }

  predicate SomeBroken(inp: Input) {
    exists s :: FindingOf(inp, s).Broken?
  }

  /** The combinations that force a BLOCK whatever the score. */
  predicate HardBlocked(inp: Input) {
    || (FindingOf(inp, PromptInjection).Fired? && FindingOf(inp, DataExfiltration).Fired?)
    || FindingOf(inp, PrivilegeEscalation).Fired?
  }

  function Score(inp: Input): int {
    if SomeBroken(inp) || HardBlocked(inp) then 100
    else if TotalOf(inp, DETECTORS) > 100 then 100
    else TotalOf(inp, DETECTORS)
  }

  function ActionOf(score: int): PolicyAction {
    if score < 45 then Allow else if score < 85 then RequireApproval else Block
  }

  lemma AllDetected(s: Signal)
    ensures s in DETECTORS
  {
    match s
    case PromptInjection => assert DETECTORS[0] == s;
    case PrivilegeEscalation => assert DETECTORS[1] == s;
    case DataExfiltration => assert DETECTORS[2] == s;
    case ScopeDeviation => assert DETECTORS[3] == s;
    case FinancialRisk => assert DETECTORS[4] == s;
    case SensitiveDataAccess => assert DETECTORS[5] == s;
    case DestructiveAction => assert DETECTORS[6] == s;
    case ExternalCommunication => assert DETECTORS[7] == s;
    case UnusualToolSequence => assert DETECTORS[8] == s;
  }

  lemma {:induction false} FiredMember(inp: Input, detectors: seq<Signal>, s: Signal)
    ensures s in FiredIn(inp, detectors) <==> s in detectors && FindingOf(inp, s).Fired?
  {
    if |detectors| > 0 {
      FiredMember(inp, detectors[..|detectors| - 1], s);
      assert detectors == detectors[..|detectors| - 1] + [detectors[|detectors| - 1]];
    }
  }

  lemma LevelBands(score: int)
    ensures RiskLevelForScore(score) ==
      if score <= 29 then Low else if score <= 59 then Medium else if score <= 84 then High else Critical
  {
    var b := RISK_LEVEL_BANDS;
    assert b[1..] == [(59, Medium), (84, High), (100, Critical)];
    assert b[1..][1..] == [(84, High), (100, Critical)];
    assert b[1..][1..][1..] == [(100, Critical)];
    assert b[1..][1..][1..][1..] == [];
    assert LevelIn(b[1..][1..][1..], score) == Critical;
    assert LevelIn(b[1..][1..], score) == if score <= 84 then High else Critical;
    assert LevelIn(b[1..], score) == if score <= 59 then Medium else LevelIn(b[1..][1..], score);
    assert LevelIn(b, score) == if score <= 29 then Low else LevelIn(b[1..], score);
  }

  /** The action is a function of the score alone. */
  lemma ActionByScore(score: int)
    ensures RecommendedActionFor(score, RiskLevelForScore(score)) == ActionOf(score)
  {
    LevelBands(score);
  }

  lemma {:induction false} TotalNatural(inp: Input, detectors: seq<Signal>)
    ensures TotalOf(inp, detectors) >= 0
  {
    if |detectors| > 0 { TotalNatural(inp, detectors[..|detectors| - 1]); }
  }

  /** `assess`: the loop over the detectors, then clamping, hard blocks and the failure override. */
  method Assess(inp: Input) returns (r: Assessment)
    ensures 0 <= r.score <= 100 && r.score == Score(inp)
    ensures r.level == RiskLevelForScore(r.score)
    ensures r.action == ActionOf(r.score)
    ensures (r.action.Allow? <==> r.score < 45) && (r.action.Block? <==> r.score >= 85)
    ensures forall s :: s in r.signals <==> FindingOf(inp, s).Fired?
  {
    var signals, score, failed := [], 0, false;
    for i := 0 to |DETECTORS|
      invariant signals == FiredIn(inp, DETECTORS[..i])
      invariant score == TotalOf(inp, DETECTORS[..i])
      invariant failed <==> exists k :: 0 <= k < i && FindingOf(inp, DETECTORS[k]).Broken?
    {
      assert DETECTORS[..i + 1][..i] == DETECTORS[..i];
      var s := DETECTORS[i];
      match FindingOf(inp, s) {
        case Broken => failed := true;
        case Quiet =>
        case Fired =>
          signals := signals + [s];
          var weight := SignalWeight(s);
          if s.FinancialRisk? { weight := FinancialRiskWeight(inp); }
          score := score + weight;
      }
    }
    assert DETECTORS[..|DETECTORS|] == DETECTORS;
    forall s ensures s in signals <==> FindingOf(inp, s).Fired? {
      AllDetected(s);
      FiredMember(inp, DETECTORS, s);
    }
    forall s | FindingOf(inp, s).Broken? ensures failed { AllDetected(s); }
    TotalNatural(inp, DETECTORS);
    hide TotalOf, FiredIn, FindingOf;
    score := if score > 100 then 100 else score;
    var level := RiskLevelForScore(score);
    var action := RecommendedActionFor(score, level);
    ActionByScore(score);
    LevelBands(100);
    if PromptInjection in signals && DataExfiltration in signals { action, score, level := Block, 100, Critical; }
    if PrivilegeEscalation in signals { action, score, level := Block, 100, Critical; }
    if failed { action, score, level := Block, 100, Critical; }
    return Assessment(score, level, signals, action);
  }

  // ---------------------------------------------------------------- monotonicity

  function Danger(f: Finding): nat {
    match f
    case Quiet => 0
    case Fired => 1
    case Broken => 2
  }

  predicate AmountAtMost(a: Amount, b: Amount) {
    || a == b
    || (a.NegativeInfinity? && (b.Finite? || b.Infinity?))
    || (a.Finite? && (b.Infinity? || (b.Finite? && a.value <= b.value)))
  }

  /** `b` sets off whatever `a` does, on an amount no smaller. */
  ghost predicate NoSafer(a: Input, b: Input) {
    && a.tool == b.tool && AmountAtMost(a.amount, b.amount)
    && forall s :: Danger(a.findings(s)) <= Danger(b.findings(s))
  }

  lemma FindingMonotone(a: Input, b: Input, s: Signal)
    requires NoSafer(a, b)
    ensures Danger(FindingOf(a, s)) <= Danger(FindingOf(b, s))
    ensures !FindingOf(b, s).Broken? ==> WeightOf(a, s) <= WeightOf(b, s)
  {
    assert Danger(a.findings(s)) <= Danger(b.findings(s));
  }

  lemma {:induction false} TotalMonotone(a: Input, b: Input, detectors: seq<Signal>)
    requires NoSafer(a, b) && !SomeBroken(b)
    ensures TotalOf(a, detectors) <= TotalOf(b, detectors)
  {
    if |detectors| > 0 {
      TotalMonotone(a, b, detectors[..|detectors| - 1]);
      FindingMonotone(a, b, detectors[|detectors| - 1]);
    }
  }

  /** More signals, more failures or a larger amount never lower the score, the action, or the decision
      combined with any policy decision that is no milder. */
  lemma RiskMonotone(a: Input, b: Input, p: PolicyAction, q: PolicyAction)
    requires NoSafer(a, b) && AtMost(p, q)
    ensures Score(a) <= Score(b)
    ensures AtMost(ActionOf(Score(a)), ActionOf(Score(b)))
    ensures AtMost(CombineDecisions(p, ActionOf(Score(a))), CombineDecisions(q, ActionOf(Score(b))))
  {
    hide TotalOf, FindingOf, NoSafer;
    forall s ensures Danger(FindingOf(a, s)) <= Danger(FindingOf(b, s)) { FindingMonotone(a, b, s); }
    if !SomeBroken(b) {
      TotalMonotone(a, b, DETECTORS);
      forall s ensures !FindingOf(a, s).Broken? { assert Danger(FindingOf(a, s)) <= Danger(FindingOf(b, s)); }
    }
  }

  /** Risk may preserve or escalate a decision, never lower it. */
  lemma NeverDowngrades(p: PolicyAction, r: PolicyAction)
    ensures AtMost(p, CombineDecisions(p, r)) && AtMost(r, CombineDecisions(p, r))
    ensures CombineDecisions(p, r) == p || CombineDecisions(p, r) == r
  {
  }

  /** What one signal alone comes to: only privilege escalation blocks by itself, injection and
      exfiltration ask for an approval, the others are let through. */
  function AloneAction(s: Signal): PolicyAction {
    match s
    case PrivilegeEscalation => Block
    case PromptInjection => RequireApproval
    case DataExfiltration => RequireApproval
    case _ => Allow
  }

  ghost predicate OnlySignal(inp: Input, s: Signal) {
    forall t :: FindingOf(inp, t) == if t == s then Fired else Quiet
  }

  lemma {:induction false} OnlyTotal(inp: Input, s: Signal, detectors: seq<Signal>)
    requires OnlySignal(inp, s)
    requires forall i, j :: 0 <= i < j < |detectors| ==> detectors[i] != detectors[j]
    ensures TotalOf(inp, detectors) == if s in detectors then WeightOf(inp, s) else 0
  {
    if |detectors| > 0 {
      var front := detectors[..|detectors| - 1];
      OnlyTotal(inp, s, front);
      assert detectors == front + [detectors[|detectors| - 1]];
    }
  }

  lemma SingleSignal(inp: Input, s: Signal)
    requires OnlySignal(inp, s)
    ensures ActionOf(Score(inp)) == AloneAction(s)
  {
    OnlyTotal(inp, s, DETECTORS);
    AllDetected(s);
    hide TotalOf;
    assert FindingOf(inp, s).Fired?;
    forall t ensures !FindingOf(inp, t).Broken? {}
  }

  function If(inp: Input, s: Signal, weight: int): int {
    if inp.findings(s).Fired? then weight else 0
  }

  /** What the amount of a refund adds. */
  function Financial(inp: Input): int {
    if inp.tool != "refund_payment" then 0
    else
      match inp.amount
      case NegativeInfinity => 10
      case Finite(x) => if x <= 100.0 then 10 else if x <= 1000.0 then 25 else 40
      case Infinity => 40
      case _ => 0
  }

  /** A detector that breaks, an amount that is no number, injection with exfiltration, and privilege
      escalation: each of these is a full score. */
  ghost predicate Full(inp: Input) {
    || (exists s: Signal :: !s.FinancialRisk? && inp.findings(s).Broken?)
    || (inp.tool == "refund_payment" && inp.amount.NotANumber?)
    || (inp.findings(PromptInjection).Fired? && inp.findings(DataExfiltration).Fired?)
    || inp.findings(PrivilegeEscalation).Fired?
  }

  lemma FullExactly(inp: Input)
    ensures Full(inp) <==> SomeBroken(inp) || HardBlocked(inp)
  {
    assert FindingOf(inp, FinancialRisk) == FinancialFinding(inp);
    if s :| FindingOf(inp, s).Broken? { assert s.FinancialRisk? || inp.findings(s).Broken?; }
    if s: Signal :| !s.FinancialRisk? && inp.findings(s).Broken? { assert FindingOf(inp, s).Broken?; }
  }

  /** Every combination of signals: otherwise the weights add up, and 100 is the most. */
  lemma ScoreExactly(inp: Input)
    ensures var sum := If(inp, PromptInjection, 60) + If(inp, DataExfiltration, 50) + If(inp, DestructiveAction, 40) +
        If(inp, SensitiveDataAccess, 35) + If(inp, ScopeDeviation, 35) + If(inp, ExternalCommunication, 20) +
        If(inp, UnusualToolSequence, 20) + Financial(inp);
      Score(inp) == if Full(inp) || sum > 100 then 100 else sum
  {
    FullExactly(inp);
    var d := DETECTORS;
    assert d[..9] == d && d[..9][..8] == d[..8] && d[..8][..7] == d[..7] && d[..7][..6] == d[..6];
    assert d[..6][..5] == d[..5] && d[..5][..4] == d[..4] && d[..4][..3] == d[..3] && d[..3][..2] == d[..2];
    assert d[..2][..1] == d[..1] && d[..1][..0] == [];
    assert TotalOf(inp, d[..1]) == WeightOf(inp, PromptInjection);
    assert TotalOf(inp, d[..3]) ==
      WeightOf(inp, PromptInjection) + WeightOf(inp, PrivilegeEscalation) + WeightOf(inp, DataExfiltration);
    assert TotalOf(inp, d[..5]) ==
      TotalOf(inp, d[..3]) + WeightOf(inp, ScopeDeviation) + WeightOf(inp, FinancialRisk);
    assert TotalOf(inp, d[..7]) ==
      TotalOf(inp, d[..5]) + WeightOf(inp, SensitiveDataAccess) + WeightOf(inp, DestructiveAction);
    assert TotalOf(inp, d[..9]) ==
      TotalOf(inp, d[..7]) + WeightOf(inp, ExternalCommunication) + WeightOf(inp, UnusualToolSequence);
    hide TotalOf, SomeBroken;
  }

  /** Sensitive data in a call to an external tool: two signals that are let through one by one block
      nothing, but together they ask for an approval; so do destruction and straying from the task. */
  lemma SignalsAddUp(inp: Input, a: Signal, b: Signal)
    requires forall t :: FindingOf(inp, t) == if t == a || t == b then Fired else Quiet
    ensures a.SensitiveDataAccess? && b.ExternalCommunication? ==>
      Score(inp) == 55 && ActionOf(Score(inp)) == RequireApproval
    ensures a.DestructiveAction? && b.ScopeDeviation? ==>
      Score(inp) == 75 && ActionOf(Score(inp)) == RequireApproval
  {
    ScoreExactly(inp);
    assert FindingOf(inp, FinancialRisk) == FinancialFinding(inp);
    forall t: Signal | !t.FinancialRisk? ensures inp.findings(t) == FindingOf(inp, t) {}
  }
}
