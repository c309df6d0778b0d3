/** The deterministic planner: the next action is derived from the step history alone. */
module Planner {
  import opened Base
  import opened Rows

  datatype Tool =
    | ReadCustomer | GetPayments | GetSupportTicket | ReadLogs | GetDeployment
    | RefundPayment | SendExternalEmail | DeployStaging | DeployProduction

  /** `READ_ONLY_TOOLS` of the runtime. */
  predicate ReadOnly(t: Tool) {
    t.ReadCustomer? || t.GetPayments? || t.GetSupportTicket? || t.ReadLogs? || t.GetDeployment?
  }

  /** One entry of a `get_payments` result.  `key` is `str(Decimal(str(amount)))`, None where that raises. */
  datatype Payment = Payment(id: string, key: Option<string>, succeeded: bool)

  /** What the planner reads of a tool result: the payments, and the address found in a ticket body. */
  datatype Result = Result(payments: seq<Payment>, address: Option<string>)

  /** A step of the history; `tool` is None for a FINAL step. */
  datatype Past = Past(tool: Option<Tool>, status: StepStatus, result: Result)

  /** What pattern matching finds in the objective. */
  datatype Objective = Objective(
    ticket: Option<string>, saysTicket: bool,
    customer: Option<string>, saysDuplicate: bool,
    saysDeploy: bool, service: Option<string>, version: Option<string>, production: bool)

  datatype Arguments =
    | ForCustomer(customer: string)
    | ForTicket(ticket: string)
    | ForService(service: string)
    | ForRefund(payment: string, execution: nat)
    | ForEmail(address: string)
    | ForDeploy(name: string, version: string, target: Tool, execution: nat)

  datatype Decision = Act(tool: Tool, arguments: Arguments) | Complete | Fail

  // ---------------------------------------------------------------- history

  /** `_completed_step`. */
  function CompletedStep(history: seq<Past>, t: Tool): (r: Option<Past>)
    ensures r.Some? <==>
      exists i :: 0 <= i < |history| && history[i].tool == Some(t) && history[i].status.StepCompleted?
    ensures r.Some? ==> r.value in history
  {
    if |history| == 0 then None
    else if history[0].tool == Some(t) && history[0].status.StepCompleted? then Some(history[0])
    else CompletedStep(history[1..], t)
  }

  /** `_attempted`: whatever became of it. */
  predicate Attempted(history: seq<Past>, t: Tool) {
    exists i :: 0 <= i < |history| && history[i].tool == Some(t)
  }

  // ---------------------------------------------------------------- the duplicate finder

  /** The group of key `k`, in list order. */
  function Group(payments: seq<Payment>, k: string): seq<Payment> {
    if |payments| == 0 then []
    else
      var p := payments[|payments| - 1];
      Group(payments[..|payments| - 1], k) + (if p.key == Some(k) then [p] else [])
  }

  /** The distinct keys, in the order in which they are first seen. */
  function Keys(payments: seq<Payment>): seq<string> {
    if |payments| == 0 then []
    else
      var before, p := Keys(payments[..|payments| - 1]), payments[|payments| - 1];
      if p.key.Some? && p.key.value !in before then before + [p.key.value] else before
  }

  function FirstSucceeded(group: seq<Payment>): Option<Payment> {
    if |group| == 0 then None
    else if group[0].succeeded then Some(group[0])
    else FirstSucceeded(group[1..])
  }

  function FromGroups(payments: seq<Payment>, keys: seq<string>): Option<Payment> {
    if |keys| == 0 then None
    else
      var g := Group(payments, keys[0]);
      if |g| >= 2 && FirstSucceeded(g).Some? then FirstSucceeded(g) else FromGroups(payments, keys[1..])
  }

  function Duplicate(payments: seq<Payment>): Option<Payment> {
    FromGroups(payments, Keys(payments))
  }

  lemma GroupNext(payments: seq<Payment>, i: nat, k: string)
    requires i < |payments|
    ensures Group(payments[..i + 1], k) ==
      if payments[i].key == Some(k) then Group(payments[..i], k) + [payments[i]] else Group(payments[..i], k)
  {
    assert payments[..i + 1][..i] == payments[..i];
  }

  lemma KeysNext(payments: seq<Payment>, i: nat)
    requires i < |payments|
    ensures Keys(payments[..i + 1]) ==
      if payments[i].key.Some? && payments[i].key.value !in Keys(payments[..i])
      then Keys(payments[..i]) + [payments[i].key.value] else Keys(payments[..i])
  {
    assert payments[..i + 1][..i] == payments[..i];
  }

  /** One more payment is added to its group. */
  lemma Filed(payments: seq<Payment>, i: nat, before: map<string, seq<Payment>>, after: map<string, seq<Payment>>)
    requires i < |payments|
    requires forall k :: Group(payments[..i], k) == if k in before then before[k] else []
    requires var p := payments[i];
      if p.key.None? then after == before
      else after == before[p.key.value := (if p.key.value in before then before[p.key.value] else []) + [p]]
    ensures forall k :: Group(payments[..i + 1], k) == if k in after then after[k] else []
  {
    hide Group;
    forall k ensures Group(payments[..i + 1], k) == if k in after then after[k] else [] {
      GroupNext(payments, i, k);
    }
  }

  /** `by_amount.setdefault(key, []).append(payment)`. */
  method Append(byAmount: map<string, seq<Payment>>, order: seq<string>, k: string, p: Payment)
    returns (after: map<string, seq<Payment>>, next: seq<string>)
    ensures after == byAmount[k := (if k in byAmount then byAmount[k] else []) + [p]]
    ensures next == if k in byAmount then order else order + [k]
  {
    after, next := byAmount, order;
    if k !in after {
      after, next := after[k := []], next + [k];
    }
    after := after[k := after[k] + [p]];
  }

  /** The first loop of `_find_duplicate_payment`: a dictionary of lists filled in one pass.  `order` is
      the insertion order that a Python dictionary keeps. */
  method GroupByAmount(payments: seq<Payment>) returns (byAmount: map<string, seq<Payment>>, order: seq<string>)
    ensures order == Keys(payments)
    ensures forall k :: k in byAmount <==> k in order
    ensures forall k :: k in byAmount ==> byAmount[k] == Group(payments, k)
  {
    byAmount, order := map[], [];
    for i := 0 to |payments|
      invariant order == Keys(payments[..i])
      invariant forall k :: k in byAmount <==> k in order
      invariant forall k :: Group(payments[..i], k) == if k in byAmount then byAmount[k] else []
    {
      hide Keys, Group;
      KeysNext(payments, i);
      var p, before := payments[i], byAmount;
      if p.key.Some? {
        byAmount, order := Append(byAmount, order, p.key.value, p);
      }
      Filed(payments, i, before, byAmount);
    }
    assert payments[..|payments|] == payments;
  }

  /** `_find_duplicate_payment`: the first group of two or more with a SUCCEEDED entry gives its first. */
  method FindDuplicatePayment(payments: seq<Payment>) returns (r: Option<Payment>)
    ensures r == Duplicate(payments)
  {
    var byAmount, order := GroupByAmount(payments);
    hide Keys, Group;
    for g := 0 to |order|
      invariant Duplicate(payments) == FromGroups(payments, order[g..])
    {
      var group := byAmount[order[g]];
      if |group| >= 2 {
        for j := 0 to |group|
          invariant FirstSucceeded(group) == FirstSucceeded(group[j..])
        {
          if group[j].succeeded { return Some(group[j]); }
        }
      }
    }
    return None;
  }

  /** The entry at index `i` shares its key with another entry and has succeeded. */
  ghost predicate Refundable(payments: seq<Payment>, i: nat) {
    && i < |payments| && payments[i].succeeded && payments[i].key.Some?
    && exists j :: 0 <= j < |payments| && j != i && payments[j].key == payments[i].key
  }

  // ---------------------------------------------------------------- the workflows

  function RefundDuplicate(execution: nat, customer: string, history: seq<Past>): Decision {
    if CompletedStep(history, ReadCustomer).None? then Act(ReadCustomer, ForCustomer(customer))
    else if CompletedStep(history, GetPayments).None? then Act(GetPayments, ForCustomer(customer))
    else if Attempted(history, RefundPayment) then Complete
    else
      var d := Duplicate(CompletedStep(history, GetPayments).value.result.payments);
      if d.None? then Complete else Act(RefundPayment, ForRefund(d.value.id, execution))
  }

  function SupportTicket(ticket: string, history: seq<Past>): Decision {
    var read := CompletedStep(history, GetSupportTicket);
    if read.None? then Act(GetSupportTicket, ForTicket(ticket))
    else if Attempted(history, SendExternalEmail) then Complete
    else if read.value.result.address.None? then Complete
    else Act(SendExternalEmail, ForEmail(read.value.result.address.value))
  }

  function Target(o: Objective): Tool {
    if o.production then DeployProduction else DeployStaging
  }

  function Deploy(execution: nat, o: Objective, history: seq<Past>): Decision {
    if o.service.None? || o.version.None? then Fail
    else if CompletedStep(history, GetDeployment).None? then Act(GetDeployment, ForService(o.service.value))
    else if Attempted(history, Target(o)) then Complete
    else Act(Target(o), ForDeploy(o.service.value, o.version.value, Target(o), execution))
  }

  function NextAction(execution: nat, o: Objective, history: seq<Past>): Decision {
    if o.saysTicket && o.ticket.Some? then SupportTicket(o.ticket.value, history)
    else if o.saysDuplicate && o.customer.Some? then RefundDuplicate(execution, o.customer.value, history)
    else if o.saysDeploy then Deploy(execution, o, history)
    else Fail
  }

  // ---------------------------------------------------------------- one advance of the runtime

  /** What the gateway answers to a call, and how an approval it asks for ends. */
  datatype Reply = Ran(result: Result) | Asked | Refused | Broke
  datatype Ending = Granted(result: Result) | Denied | Lapsed | GrantedButFailed

  datatype Answers = Answers(first: Reply, retry: Reply, ending: Ending)

  datatype Progress = Progress(history: seq<Past>, status: ExecutionStatus)

  const NOTHING: Result := Result([], None)

  /** A call's step is settled: at once, or when `resume` finds its approval resolved. */
  function Settle(s: Progress, t: Tool, reply: Reply, ending: Ending): Progress {
    match reply
    case Ran(r) => s.(history := s.history + [Past(Some(t), StepCompleted, r)])
    case Refused => Progress(s.history + [Past(Some(t), StepBlocked, NOTHING)], Blocked)
    case Broke => Progress(s.history + [Past(Some(t), StepFailed, NOTHING)], Failed)
    case Asked =>
      match ending
      case Granted(r) => s.(history := s.history + [Past(Some(t), StepCompleted, r)])
      case Denied => Progress(s.history + [Past(Some(t), StepBlocked, NOTHING)], Blocked)
      case Lapsed => Progress(s.history + [Past(Some(t), StepFailed, NOTHING)], Failed)
      case GrantedButFailed => Progress(s.history + [Past(Some(t), StepFailed, NOTHING)], Failed)
  }

  /** `_advance`, and the resolution of the approval it may have to wait for. */
  function Advance(execution: nat, o: Objective, maxSteps: nat, s: Progress, a: Answers): Progress {
    if !s.status.Running? then s
    else if |s.history| >= maxSteps then Progress(s.history + [Past(None, StepFailed, NOTHING)], Failed)
    else
      match NextAction(execution, o, s.history)
      case Complete => Progress(s.history + [Past(None, StepCompleted, NOTHING)], Completed)
      case Fail => Progress(s.history + [Past(None, StepFailed, NOTHING)], Failed)
      case Act(t, _) =>
        if a.first.Broke? && ReadOnly(t)
        then Settle(s.(history := s.history + [Past(Some(t), StepFailed, NOTHING)]), t, a.retry, a.ending)
        else Settle(s, t, a.first, a.ending)
  }

  function Drive(execution: nat, o: Objective, maxSteps: nat, answers: nat -> Answers, n: nat): Progress {
    if n == 0 then Progress([], Running)
    else Advance(execution, o, maxSteps, Drive(execution, o, maxSteps, answers, n - 1), answers(n - 1))
  }

  // ---------------------------------------------------------------- the duplicate finder is right

  /** The index at which key `k` is first seen; the length if it is not. */
  function FirstSeen(payments: seq<Payment>, k: string): (i: nat)
    ensures i <= |payments|
    ensures i < |payments| ==> payments[i].key == Some(k)
    ensures forall j :: 0 <= j < i ==> payments[j].key != Some(k)
  {
    if |payments| == 0 then 0
    else
      var n := |payments| - 1;
      var i := FirstSeen(payments[..n], k);
      if i < n then i else if payments[n].key == Some(k) then n else n + 1
  }

  /** The first SUCCEEDED entry of key `k`; the length if there is none. */
  function FirstGood(payments: seq<Payment>, k: string): (i: nat)
    ensures i <= |payments|
    ensures i < |payments| ==> payments[i].key == Some(k) && payments[i].succeeded
    ensures forall j :: 0 <= j < i ==> !(payments[j].key == Some(k) && payments[j].succeeded)
  {
    if |payments| == 0 then 0
    else
      var n := |payments| - 1;
      var i := FirstGood(payments[..n], k);
      if i < n then i else if payments[n].key == Some(k) && payments[n].succeeded then n else n + 1
  }

  lemma {:induction false} FirstSucceededLast(g: seq<Payment>, p: Payment)
    ensures FirstSucceeded(g + [p]) ==
      if FirstSucceeded(g).Some? then FirstSucceeded(g) else if p.succeeded then Some(p) else None
  {
    if |g| > 0 {
      assert (g + [p])[1..] == g[1..] + [p];
      FirstSucceededLast(g[1..], p);
    } else {
      assert (g + [p])[1..] == [];
    }
  }

  lemma {:induction false} GroupFirst(payments: seq<Payment>, k: string)
    ensures FirstSucceeded(Group(payments, k)) ==
      var i := FirstGood(payments, k); if i < |payments| then Some(payments[i]) else None
  {
    if |payments| > 0 {
      var n := |payments| - 1;
      GroupFirst(payments[..n], k);
      FirstSucceededLast(Group(payments[..n], k), payments[n]);
      assert Group(payments[..n], k) + [] == Group(payments[..n], k);
    }
  }

  predicate Twice(payments: seq<Payment>, k: string) {
    exists i, j :: 0 <= i < j < |payments| && payments[i].key == Some(k) && payments[j].key == Some(k)
  }

  lemma TwiceNext(payments: seq<Payment>, k: string)
    requires |payments| > 0
    ensures var n := |payments| - 1;
      Twice(payments, k) <==>
        Twice(payments[..n], k) || (FirstSeen(payments[..n], k) < n && payments[n].key == Some(k))
  {
    var n := |payments| - 1;
    var front, f := payments[..n], FirstSeen(payments[..n], k);
    hide FirstSeen;
    if Twice(front, k) {
      var i, j :| 0 <= i < j < |front| && front[i].key == Some(k) && front[j].key == Some(k);
      assert payments[i].key == Some(k) && payments[j].key == Some(k);
    } else if f < n && payments[n].key == Some(k) {
      assert payments[f].key == Some(k) && payments[n].key == Some(k);
    } else {
      forall i, j | 0 <= i < j < |payments| ensures !(payments[i].key == Some(k) && payments[j].key == Some(k)) {
        assert front[i] == payments[i];
        assert j < n ==> front[j] == payments[j];
      }
    }
  }

  lemma {:induction false} GroupSize(payments: seq<Payment>, k: string)
    ensures |Group(payments, k)| >= 1 <==> FirstSeen(payments, k) < |payments|
    ensures |Group(payments, k)| >= 2 <==> Twice(payments, k)
  {
    if |payments| > 0 {
      var n := |payments| - 1;
      GroupSize(payments[..n], k);
      TwiceNext(payments, k);
      hide Twice;
    }
  }

  lemma {:induction false} KeysFacts(payments: seq<Payment>)
    ensures forall k :: k in Keys(payments) <==> FirstSeen(payments, k) < |payments|
    ensures forall a, b :: 0 <= a < b < |Keys(payments)| ==>
      FirstSeen(payments, Keys(payments)[a]) < FirstSeen(payments, Keys(payments)[b])
  {
    if |payments| > 0 { KeysFacts(payments[..|payments| - 1]); }
  }

  /** Key `k` has an entry to refund. */
  predicate Eligible(payments: seq<Payment>, k: string) {
    |Group(payments, k)| >= 2 && FirstSucceeded(Group(payments, k)).Some?
  }

  lemma {:induction false} FromGroupsFirst(payments: seq<Payment>, keys: seq<string>)
    ensures var r := FromGroups(payments, keys);
      if r.None? then forall a :: 0 <= a < |keys| ==> !Eligible(payments, keys[a])
      else exists a :: 0 <= a < |keys| && Eligible(payments, keys[a]) && r == FirstSucceeded(Group(payments, keys[a]))
             && forall b :: 0 <= b < a ==> !Eligible(payments, keys[b])
  {
    hide Group, FirstSucceeded;
    if |keys| > 0 && !Eligible(payments, keys[0]) {
      FromGroupsFirst(payments, keys[1..]);
      var r := FromGroups(payments, keys[1..]);
      if r.Some? {
        var a :| 0 <= a < |keys[1..]| && Eligible(payments, keys[1..][a]) &&
          r == FirstSucceeded(Group(payments, keys[1..][a]))
          && forall b :: 0 <= b < a ==> !Eligible(payments, keys[1..][b]);
        assert keys[a + 1] == keys[1..][a];
        forall b | 0 <= b < a + 1 ensures !Eligible(payments, keys[b]) {
          if b > 0 { assert keys[b] == keys[1..][b - 1]; }
        }
      } else {
        forall a | 0 <= a < |keys| ensures !Eligible(payments, keys[a]) {
          if a > 0 { assert keys[a] == keys[1..][a - 1]; }
        }
      }
    }
  }

  lemma RefundableIsEligible(payments: seq<Payment>, i: nat)
    requires i < |payments| && payments[i].key.Some?
    ensures Refundable(payments, i) ==> Eligible(payments, payments[i].key.value)
    ensures Eligible(payments, payments[i].key.value) && payments[i].succeeded ==> Refundable(payments, i)
  {
    var k := payments[i].key.value;
    GroupSize(payments, k);
    GroupFirst(payments, k);
    if Refundable(payments, i) {
      var j :| 0 <= j < |payments| && j != i && payments[j].key == payments[i].key;
      if i < j { assert payments[i].key == Some(k) && payments[j].key == Some(k); }
      else { assert payments[j].key == Some(k) && payments[i].key == Some(k); }
    }
    if Eligible(payments, k) && payments[i].succeeded {
      var a, b :| 0 <= a < b < |payments| && payments[a].key == Some(k) && payments[b].key == Some(k);
      assert payments[if a == i then b else a].key == payments[i].key;
    }
  }

  ghost predicate Goes(payments: seq<Payment>, i: nat, j: nat)
    requires i < |payments| && j < |payments|
  {
    payments[i].key.Some? && payments[j].key.Some? &&
    (FirstSeen(payments, payments[i].key.value) < FirstSeen(payments, payments[j].key.value) ||
     (payments[i].key == payments[j].key && i <= j))
  }

  /** Of the entries to refund: its group is the first seen, and it is the first of its group. */
  ghost predicate Chosen(payments: seq<Payment>, i: nat) {
    i < |payments| && Refundable(payments, i) &&
    forall j :: 0 <= j < |payments| && Refundable(payments, j) ==> Goes(payments, i, j)
  }

  lemma EligibleSeen(payments: seq<Payment>, j: nat)
    requires j < |payments| && Refundable(payments, j)
    ensures payments[j].key.Some? && payments[j].key.value in Keys(payments) &&
      Eligible(payments, payments[j].key.value)
  {
    KeysFacts(payments);
    RefundableIsEligible(payments, j);
  }

  lemma GoesFirst(payments: seq<Payment>, a: nat, i: nat, j: nat)
    requires var keys := Keys(payments);
      a < |keys| && (forall b :: 0 <= b < a ==> !Eligible(payments, keys[b])) && i == FirstGood(payments, keys[a])
    requires i < |payments| && j < |payments| && Refundable(payments, j)
    ensures Goes(payments, i, j)
  {
    EligibleSeen(payments, j);
    KeysFacts(payments);
    hide Eligible, Keys, FirstSeen, FirstGood;
    var keys := Keys(payments);
    var b :| 0 <= b < |keys| && keys[b] == payments[j].key.value;
    if b > a { assert FirstSeen(payments, keys[a]) < FirstSeen(payments, keys[b]); }
  }

  lemma ChosenFrom(payments: seq<Payment>, a: nat)
    requires var keys := Keys(payments);
      a < |keys| && Eligible(payments, keys[a]) && (forall b :: 0 <= b < a ==> !Eligible(payments, keys[b]))
    ensures var i := FirstGood(payments, Keys(payments)[a]);
      Chosen(payments, i) && FirstSucceeded(Group(payments, Keys(payments)[a])) == Some(payments[i])
  {
    var k := Keys(payments)[a];
    GroupFirst(payments, k);
    var i := FirstGood(payments, k);
    RefundableIsEligible(payments, i);
    hide Eligible, Keys, FirstGood, Refundable, Goes, Group, FirstSucceeded;
    forall j | 0 <= j < |payments| && Refundable(payments, j) ensures Goes(payments, i, j) {
      GoesFirst(payments, a, i, j);
    }
  }

  /** Sound and complete: nothing is returned only when no payment that shares its amount has succeeded;
      otherwise the returned one has, its group was seen before any other group with such a payment, and
      it is the first such payment of its group. */
  lemma DuplicateRight(payments: seq<Payment>)
    ensures Duplicate(payments).None? <==> forall i :: 0 <= i < |payments| ==> !Refundable(payments, i)
    ensures Duplicate(payments).Some? ==>
      exists i: nat :: Chosen(payments, i) && Duplicate(payments) == Some(payments[i])
  {
    hide Group, FirstSucceeded, FromGroups, Keys, Refundable, Eligible, Goes;
    var keys := Keys(payments);
    FromGroupsFirst(payments, keys);
    if Duplicate(payments).None? {
      forall i | 0 <= i < |payments| ensures !Refundable(payments, i) {
        if Refundable(payments, i) { EligibleSeen(payments, i); }
      }
    } else {
      var a :| 0 <= a < |keys| && Eligible(payments, keys[a]) &&
        Duplicate(payments) == FirstSucceeded(Group(payments, keys[a]))
        && forall b :: 0 <= b < a ==> !Eligible(payments, keys[b]);
      ChosenFrom(payments, a);
      assert Chosen(payments, FirstGood(payments, keys[a]));
    }
  }

  // ---------------------------------------------------------------- what is proposed, and when

  /** A step of the tool has run to its end. */
  ghost predicate Done(history: seq<Past>, t: Tool) {
    exists i :: 0 <= i < |history| && history[i].tool == Some(t) && history[i].status.StepCompleted?
  }

  /** The result of the first such step. */
  ghost predicate FirstDone(history: seq<Past>, t: Tool, r: Result) {
    exists i :: 0 <= i < |history| && history[i].tool == Some(t) && history[i].status.StepCompleted?
      && history[i].result == r
      && forall j :: 0 <= j < i ==> !(history[j].tool == Some(t) && history[j].status.StepCompleted?)
  }

  lemma {:induction false} CompletedFirst(history: seq<Past>, t: Tool)
    ensures var r := CompletedStep(history, t);
      && (r.Some? <==> Done(history, t)) && (r.Some? ==> FirstDone(history, t, r.value.result))
  {
    if |history| > 0 && !(history[0].tool == Some(t) && history[0].status.StepCompleted?) {
      CompletedFirst(history[1..], t);
      var r := CompletedStep(history[1..], t);
      if r.Some? {
        var i :| 0 <= i < |history[1..]| && history[1..][i].tool == Some(t) && history[1..][i].status.StepCompleted?
          && history[1..][i].result == r.value.result
          && forall j :: 0 <= j < i ==> !(history[1..][j].tool == Some(t) && history[1..][j].status.StepCompleted?);
        var k := i + 1;
        assert history[k] == history[1..][i];
        forall j | 0 <= j < k ensures !(history[j].tool == Some(t) && history[j].status.StepCompleted?) {
          if j > 0 { assert history[j] == history[1..][j - 1]; }
        }
        assert FirstDone(history, t, history[k].result);
      }
    }
  }

  ghost predicate SomeRefundable(payments: seq<Payment>) {
    exists i :: 0 <= i < |payments| && Refundable(payments, i)
  }

  /** A duplicate payment: the customer, then the payments; then the refund exactly when it has not been
      tried and some payment can be refunded; otherwise the work is done. */
  lemma RefundProposed(execution: nat, o: Objective, history: seq<Past>)
    requires !(o.saysTicket && o.ticket.Some?) && o.saysDuplicate && o.customer.Some?
    ensures var d := NextAction(execution, o, history);
      && (d == Act(ReadCustomer, ForCustomer(o.customer.value)) <==> !Done(history, ReadCustomer))
      && (d == Act(GetPayments, ForCustomer(o.customer.value)) <==>
            Done(history, ReadCustomer) && !Done(history, GetPayments))
      && (d.Act? && d.tool.RefundPayment? <==>
            && Done(history, ReadCustomer) && !Attempted(history, RefundPayment)
            && exists r :: FirstDone(history, GetPayments, r) && SomeRefundable(r.payments))
      && (d.Act? || d.Complete?)
      && (d.Act? ==> d.tool.ReadCustomer? || d.tool.GetPayments? || d.tool.RefundPayment?)
  {
    CompletedFirst(history, ReadCustomer);
    CompletedFirst(history, GetPayments);
    hide CompletedStep, Duplicate, Refundable, Attempted, Done;
    var p := CompletedStep(history, GetPayments);
    if p.Some? {
      DuplicateRight(p.value.result.payments);
      assert Duplicate(p.value.result.payments).Some? <==> SomeRefundable(p.value.result.payments);
      hide SomeRefundable;
      forall r | FirstDone(history, GetPayments, r) ensures r == p.value.result {
        SameFirst(history, GetPayments, r, p.value.result);
      }
    } else {
      forall r ensures !FirstDone(history, GetPayments, r) { FirstIsDone(history, GetPayments, r); }
    }
  }

  lemma FirstIsDone(history: seq<Past>, t: Tool, r: Result)
    ensures FirstDone(history, t, r) ==> Done(history, t)
  {
  }

  lemma SameFirst(history: seq<Past>, t: Tool, r: Result, q: Result)
    requires FirstDone(history, t, r) && FirstDone(history, t, q)
    ensures r == q
  {
  }

  /** A ticket: read it; then the email exactly when it has not been tried and the ticket names an address. */
  lemma EmailProposed(execution: nat, o: Objective, history: seq<Past>)
    requires o.saysTicket && o.ticket.Some?
    ensures var d := NextAction(execution, o, history);
      && (d == Act(GetSupportTicket, ForTicket(o.ticket.value)) <==> !Done(history, GetSupportTicket))
      && (d.Act? && d.tool.SendExternalEmail? <==>
            && !Attempted(history, SendExternalEmail)
            && exists r :: FirstDone(history, GetSupportTicket, r) && r.address.Some?)
      && (d.Act? || d.Complete?) && (d.Act? ==> d.tool.GetSupportTicket? || d.tool.SendExternalEmail?)
  {
    CompletedFirst(history, GetSupportTicket);
    hide CompletedStep, Attempted, Done;
    var p := CompletedStep(history, GetSupportTicket);
    if p.Some? {
      forall r | FirstDone(history, GetSupportTicket, r) ensures r == p.value.result {
        SameFirst(history, GetSupportTicket, r, p.value.result);
      }
    } else {
      forall r ensures !FirstDone(history, GetSupportTicket, r) { FirstIsDone(history, GetSupportTicket, r); }
    }
  }

  /** A deploy: without service and version it fails; otherwise the state is read, and then the deploy to
      the environment asked for exactly when that has not been tried.  Any other objective fails. */
  lemma DeployProposed(execution: nat, o: Objective, history: seq<Past>)
    requires !(o.saysTicket && o.ticket.Some?) && !(o.saysDuplicate && o.customer.Some?)
    ensures var d, ready := NextAction(execution, o, history), o.saysDeploy && o.service.Some? && o.version.Some?;
      && (d.Fail? <==> !ready)
      && (d.Act? && d.tool.GetDeployment? <==> ready && !Done(history, GetDeployment))
      && (d.Act? && d.tool.GetDeployment? ==> d.arguments == ForService(o.service.value))
      && (d.Act? && d.tool.DeployProduction? <==>
            ready && o.production && Done(history, GetDeployment) && !Attempted(history, DeployProduction))
      && (d.Act? && d.tool.DeployStaging? <==>
            ready && !o.production && Done(history, GetDeployment) && !Attempted(history, DeployStaging))
      && (d.Act? ==> d.tool.GetDeployment? || d.tool.DeployProduction? || d.tool.DeployStaging?)
  {
    CompletedFirst(history, GetDeployment);
    hide CompletedStep, Attempted, Done;
  }

  // ---------------------------------------------------------------- what is never proposed twice

  predicate Effectful(t: Tool) {
    t.RefundPayment? || t.SendExternalEmail? || t.DeployStaging? || t.DeployProduction?
  }

  /** Whatever the history, however it came about. */
  lemma NeverReproposed(execution: nat, o: Objective, history: seq<Past>, t: Tool)
    requires Effectful(t) && Attempted(history, t)
    ensures var d := NextAction(execution, o, history); d.Act? ==> d.tool != t
  {
    hide CompletedStep, Duplicate;
  }

  /** What an effectful proposal rests on: a refund is of the chosen duplicate in a completed payment
      listing, an email goes to the address in a completed ticket, a deploy is of what was asked for;
      the idempotency keys depend on the execution and the tool only. */
  lemma ProposalsGrounded(execution: nat, o: Objective, history: seq<Past>)
    requires NextAction(execution, o, history).Act? && Effectful(NextAction(execution, o, history).tool)
    ensures var d := NextAction(execution, o, history);
      match d.arguments
      case ForRefund(payment, x) => d.tool.RefundPayment? && x == execution &&
        exists p: Past, i: nat :: p in history && p.tool == Some(GetPayments) && p.status.StepCompleted? &&
          Chosen(p.result.payments, i) && p.result.payments[i].id == payment
      case ForEmail(address) => d.tool.SendExternalEmail? &&
        exists p: Past :: p in history && p.tool == Some(GetSupportTicket) && p.status.StepCompleted? &&
          p.result.address == Some(address)
      case ForDeploy(name, version, target, x) =>
        d.tool == target == Target(o) && o.service == Some(name) && o.version == Some(version) && x == execution
      case _ => false
  {
    var d := NextAction(execution, o, history);
    if d.tool.RefundPayment? {
      var p := CompletedStep(history, GetPayments).value;
      CompletedIs(history, GetPayments);
      DuplicateRight(p.result.payments);
      var i: nat :| Chosen(p.result.payments, i) && Duplicate(p.result.payments) == Some(p.result.payments[i]);
    } else if d.tool.SendExternalEmail? {
      CompletedIs(history, GetSupportTicket);
    }
  }

  lemma {:induction false} CompletedIs(history: seq<Past>, t: Tool)
    ensures var r := CompletedStep(history, t);
      r.Some? ==> r.value in history && r.value.tool == Some(t) && r.value.status.StepCompleted?
  {
    if |history| > 0 { CompletedIs(history[1..], t); }
  }

  /** A run of the runtime attempts each such tool at most once. */
  lemma {:induction false} AttemptedOnce(execution: nat, o: Objective, maxSteps: nat, answers: nat -> Answers, n: nat,
                                         t: Tool, i: nat, j: nat)
    requires Effectful(t) && i < j < |Drive(execution, o, maxSteps, answers, n).history|
    ensures var h := Drive(execution, o, maxSteps, answers, n).history; !(h[i].tool == Some(t) && h[j].tool == Some(t))
  {
    var s := Drive(execution, o, maxSteps, answers, n - 1);
    AdvanceAppends(execution, o, maxSteps, s, answers(n - 1), t);
    hide Advance, Attempted;
    if j < |s.history| { AttemptedOnce(execution, o, maxSteps, answers, n - 1, t, i, j); }
  }

  lemma SettleOne(s: Progress, t: Tool, reply: Reply, ending: Ending)
    ensures var h := Settle(s, t, reply, ending).history;
      |h| == |s.history| + 1 && h[..|s.history|] == s.history && h[|s.history|].tool == Some(t)
  {
  }

  lemma NotAttempted(history: seq<Past>, t: Tool)
    ensures !Attempted(history, t) ==> forall i :: 0 <= i < |history| ==> history[i].tool != Some(t)
  {
  }

  lemma AdvanceAppends(execution: nat, o: Objective, maxSteps: nat, s: Progress, a: Answers, t: Tool)
    requires Effectful(t)
    ensures var h := Advance(execution, o, maxSteps, s, a).history;
      && |s.history| <= |h| <= |s.history| + 2 && h[..|s.history|] == s.history
      && (forall j :: |s.history| <= j < |h| && h[j].tool == Some(t) ==>
            j == |s.history| && forall i :: 0 <= i < j ==> h[i].tool != Some(t))
  {
    hide NextAction, Attempted, Settle;
    if Attempted(s.history, t) { NeverReproposed(execution, o, s.history, t); }
    var d := NextAction(execution, o, s.history);
    if d.Act? {
      var failed := Past(Some(d.tool), StepFailed, NOTHING);
      SettleOne(s, d.tool, a.first, a.ending);
      SettleOne(s.(history := s.history + [failed]), d.tool, a.retry, a.ending);
    }
    NotAttempted(s.history, t);
  }

  // ---------------------------------------------------------------- termination

  predicate IsTicket(o: Objective) { o.saysTicket && o.ticket.Some? }

  predicate IsDuplicate(o: Objective) { !IsTicket(o) && o.saysDuplicate && o.customer.Some? }

  predicate IsDeploy(o: Objective) {
    !IsTicket(o) && !IsDuplicate(o) && o.saysDeploy && o.service.Some? && o.version.Some?
  }

  predicate Has(history: seq<Past>, t: Tool) {
    CompletedStep(history, t).Some?
  }

  /** Advances still to come, at most. */
  function AdvancesLeft(o: Objective, s: Progress): nat {
    if !s.status.Running? then 0
    else if IsTicket(o) then
      if !Has(s.history, GetSupportTicket) then 3 else if !Attempted(s.history, SendExternalEmail) then 2 else 1
    else if IsDuplicate(o) then
      if !Has(s.history, ReadCustomer) then 4
      else if !Has(s.history, GetPayments) then 3
      else if !Attempted(s.history, RefundPayment) then 2 else 1
    else if IsDeploy(o) then
      if !Has(s.history, GetDeployment) then 3 else if !Attempted(s.history, Target(o)) then 2 else 1
    else 1
  }

  /** Steps still to come, at most: a read may take two, everything else takes one. */
  function StepsLeft(o: Objective, s: Progress): nat {
    var n := AdvancesLeft(o, s);
    if n <= 2 then n else 2 * n - 2
  }

  lemma AppendHistory(h: seq<Past>, p: Past, t: Tool)
    ensures Has(h + [p], t) <==> Has(h, t) || (p.tool == Some(t) && p.status.StepCompleted?)
    ensures Attempted(h + [p], t) <==> Attempted(h, t) || p.tool == Some(t)
  {
    var g := h + [p];
    assert g[|h|] == p && g[..|h|] == h;
    if Has(h, t) {
      var i :| 0 <= i < |h| && h[i].tool == Some(t) && h[i].status.StepCompleted?;
      assert g[i].tool == Some(t) && g[i].status.StepCompleted?;
    }
    if Attempted(h, t) {
      var i :| 0 <= i < |h| && h[i].tool == Some(t);
      assert g[i].tool == Some(t);
    }
  }

  /** The step of a settled call. */
  lemma SettleAppends(s: Progress, t: Tool, reply: Reply, ending: Ending, u: Tool)
    requires s.status.Running?
    ensures var e := Settle(s, t, reply, ending);
      && |e.history| == |s.history| + 1
      && (e.status.Running? || Terminal(e.status))
      && (e.status.Running? ==> Has(e.history, t) && Attempted(e.history, t))
      && (Has(s.history, u) ==> Has(e.history, u)) && (Attempted(s.history, u) ==> Attempted(e.history, u))
  {
    var e := Settle(s, t, reply, ending);
    AppendHistory(s.history, e.history[|s.history|], u);
    AppendHistory(s.history, e.history[|s.history|], t);
    hide Has, Attempted;
  }

  /** An acting advance: one step, or two for a read; afterwards the tool has run or all is over. */
  lemma ActAdvances(execution: nat, o: Objective, maxSteps: nat, s: Progress, a: Answers, u: Tool)
    requires s.status.Running? && |s.history| < maxSteps && NextAction(execution, o, s.history).Act?
    ensures var e, t := Advance(execution, o, maxSteps, s, a), NextAction(execution, o, s.history).tool;
      && |e.history| <= |s.history| + (if ReadOnly(t) then 2 else 1)
      && (e.status.Running? || Terminal(e.status))
      && (e.status.Running? ==> Has(e.history, t) && Attempted(e.history, t))
      && (Has(s.history, u) ==> Has(e.history, u)) && (Attempted(s.history, u) ==> Attempted(e.history, u))
  {
    hide Has, Attempted, NextAction, Settle;
    var t := NextAction(execution, o, s.history).tool;
    var failed := Past(Some(t), StepFailed, NOTHING);
    AppendHistory(s.history, failed, u);
    SettleAppends(s, t, a.first, a.ending, u);
    SettleAppends(s.(history := s.history + [failed]), t, a.retry, a.ending, u);
  }

  lemma Shrinks(execution: nat, o: Objective, maxSteps: nat, s: Progress, a: Answers)
    requires s.status.Running?
    ensures var e := Advance(execution, o, maxSteps, s, a);
      && (e.status.Running? || Terminal(e.status))
      && AdvancesLeft(o, e) < AdvancesLeft(o, s)
      && |e.history| + StepsLeft(o, e) <= |s.history| + StepsLeft(o, s)
  {
    if |s.history| < maxSteps && NextAction(execution, o, s.history).Act? {
      ActAdvances(execution, o, maxSteps, s, a, ReadCustomer);
      ActAdvances(execution, o, maxSteps, s, a, GetPayments);
      ActAdvances(execution, o, maxSteps, s, a, GetSupportTicket);
      ActAdvances(execution, o, maxSteps, s, a, GetDeployment);
      hide Has, Attempted, Advance, CompletedStep, Duplicate;
      NextIs(execution, o, s.history);
    }
  }

  /** The planner's proposal, by what the history has. */
  lemma NextIs(execution: nat, o: Objective, history: seq<Past>)
    requires NextAction(execution, o, history).Act?
    ensures var t := NextAction(execution, o, history).tool;
      || (IsTicket(o) && if !Has(history, GetSupportTicket) then t == GetSupportTicket
                         else t == SendExternalEmail && !Attempted(history, t))
      || (IsDuplicate(o) && if !Has(history, ReadCustomer) then t == ReadCustomer
                            else if !Has(history, GetPayments) then t == GetPayments
                            else t == RefundPayment && !Attempted(history, t))
      || (IsDeploy(o) && if !Has(history, GetDeployment) then t == GetDeployment
                         else t == Target(o) && !Attempted(history, t))
  {
    hide CompletedStep, Duplicate, Attempted;
  }

  lemma {:induction false} DriveBounded(execution: nat, o: Objective, maxSteps: nat, answers: nat -> Answers, n: nat)
    ensures var s := Drive(execution, o, maxSteps, answers, n);
      && (s.status.Running? || Terminal(s.status))
      && (s.status.Running? ==> AdvancesLeft(o, s) + n <= 4)
      && |s.history| + StepsLeft(o, s) <= 6
  {
    hide Advance, AdvancesLeft;
    if n > 0 {
      var s := Drive(execution, o, maxSteps, answers, n - 1);
      DriveBounded(execution, o, maxSteps, answers, n - 1);
      if s.status.Running? {
        Shrinks(execution, o, maxSteps, s, answers(n - 1));
      } else {
        StaysDone(execution, o, maxSteps, s, answers(n - 1));
      }
    } else {
      StartBounded(o);
    }
  }

  lemma StartBounded(o: Objective)
    ensures AdvancesLeft(o, Progress([], Running)) <= 4
  {
  }

  lemma StaysDone(execution: nat, o: Objective, maxSteps: nat, s: Progress, a: Answers)
    requires !s.status.Running?
    ensures Advance(execution, o, maxSteps, s, a) == s && AdvancesLeft(o, s) == 0
  {
  }

  /** Every objective, every answer of the gateway and every ending of every approval: the execution is
      over after at most four advances, with at most six steps. */
  lemma Terminates(execution: nat, o: Objective, maxSteps: nat, answers: nat -> Answers, n: nat)
    ensures |Drive(execution, o, maxSteps, answers, n).history| <= 6
    ensures n >= 4 ==> Terminal(Drive(execution, o, maxSteps, answers, n).status)
  {
    DriveBounded(execution, o, maxSteps, answers, n);
    LeftPositive(o, Drive(execution, o, maxSteps, answers, n));
    hide Drive, AdvancesLeft;
  }

  lemma LeftPositive(o: Objective, s: Progress)
    ensures s.status.Running? ==> AdvancesLeft(o, s) >= 1
  {
  }
}
