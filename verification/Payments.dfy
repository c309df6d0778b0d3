/** The refund tool: idempotent by key under any interleaving, conserving in serial use. */
module Payments {
  import opened Base

  datatype Payment = Payment(id: string, cents: int, refunded: bool)

  /** `payment` is the row's index in the payments table. */
  datatype Refund = Refund(payment: nat, cents: int, reason: string, key: string)

  datatype Table = Table(payments: seq<Payment>, refunds: seq<Refund>)

  datatype Input = Input(payment: string, amount: real, reason: string, key: string)

  /** `row` is the refund row that a success reports. */
  datatype Outcome =
    | Refunded(row: nat, payment: string, cents: int, reason: string, replay: bool)
    | InvalidArguments | NotFound | AlreadyRefunded | InvalidAmount

  /** What `Numeric(10, 2)` keeps of a positive amount. */
  function Cents(amount: real): int {
    (amount * 100.0 + 0.5).Floor
  }

  /** Rounded to the nearest cent, a half up; whole cents are kept. */
  lemma CentsNearest(amount: real, n: int)
    ensures Cents(amount) == n <==> -0.5 <= amount * 100.0 - n as real < 0.5
    ensures amount * 100.0 == n as real ==> Cents(amount) == n
  {
  }

  /** `select ... where idempotency_key = key`. */
  function RowOf(refunds: seq<Refund>, key: string): (r: Option<nat>)
    ensures r.Some? ==> r.value < |refunds| && refunds[r.value].key == key
    ensures r.None? ==> forall i :: 0 <= i < |refunds| ==> refunds[i].key != key
  {
    if |refunds| == 0 then None
    else if refunds[|refunds| - 1].key == key then Some(|refunds| - 1)
    else RowOf(refunds[..|refunds| - 1], key)
  }

  function PaymentOf(payments: seq<Payment>, id: string): (r: Option<nat>)
    ensures r.Some? ==> r.value < |payments| && payments[r.value].id == id
    ensures r.None? ==> forall i :: 0 <= i < |payments| ==> payments[i].id != id
  {
    if |payments| == 0 then None
    else if payments[|payments| - 1].id == id then Some(|payments| - 1)
    else PaymentOf(payments[..|payments| - 1], id)
  }

  function Report(t: Table, row: nat, replay: bool): Outcome
    requires row < |t.refunds|
  {
    var r := t.refunds[row];
    Refunded(row, if r.payment < |t.payments| then t.payments[r.payment].id else "", r.cents, r.reason, replay)
  }

  /** Both writes of a new refund, in one commit. */
  function Insert(t: Table, p: nat, inp: Input): Table
    requires p < |t.payments|
  {
    Table(t.payments[p := t.payments[p].(refunded := true)],
          t.refunds + [Refund(p, Cents(inp.amount), inp.reason, inp.key)])
  }

  // ---------------------------------------------------------------- the tool, run serially

  /** Each payment has at most one refund, which it covers, and then it is REFUNDED. */
  ghost predicate Conserved(t: Table) {
    && (forall i :: 0 <= i < |t.refunds| ==>
          var r := t.refunds[i];
          r.payment < |t.payments| && 0 <= r.cents <= t.payments[r.payment].cents && t.payments[r.payment].refunded)
    && (forall i, j :: 0 <= i < j < |t.refunds| ==> t.refunds[i].payment != t.refunds[j].payment)
  }

  ghost predicate KeysUnique(t: Table) {
    forall i, j :: 0 <= i < j < |t.refunds| ==> t.refunds[i].key != t.refunds[j].key
  }

  /** What the check finds of the payment asked for, by the answer. */
  predicate Found(p: Payment, inp: Input, out: Outcome) {
    && p.id == inp.payment
    && (out.AlreadyRefunded? <==> p.refunded)
    && (out.InvalidAmount? <==> !p.refunded && inp.amount * 100.0 > p.cents as real)
  }

  class RefundTool {
    var payments: seq<Payment>
    var refunds: seq<Refund>

    ghost function Now(): Table
      reads this
    {
      Table(payments, refunds)
    }

    constructor (payments: seq<Payment>)
      ensures Now() == Table(payments, []) && Conserved(Now()) && KeysUnique(Now())
    {
      this.payments, this.refunds := payments, [];
    }

    /** `execute` and `_run`. */
    method Run(inp: Input) returns (out: Outcome)
      modifies this
      ensures out == Serial(old(Now()), inp).1 && Now() == Serial(old(Now()), inp).0
      ensures out.InvalidArguments? <==> inp.amount <= 0.0
      ensures out.Refunded? && out.replay <==>
        inp.amount > 0.0 && exists i :: 0 <= i < |old(refunds)| && old(refunds)[i].key == inp.key
      ensures out.NotFound? ==> forall i :: 0 <= i < |old(payments)| ==> old(payments)[i].id != inp.payment
      ensures out.AlreadyRefunded? || out.InvalidAmount? || (out.Refunded? && !out.replay) ==>
        exists p :: 0 <= p < |old(payments)| && Found(old(payments)[p], inp, out)
      ensures out.Refunded? ==>
        && out.row < |refunds| && refunds[out.row].key == inp.key
        && out.cents == refunds[out.row].cents && out.reason == refunds[out.row].reason
        && (refunds[out.row].payment < |payments| ==> out.payment == payments[refunds[out.row].payment].id)
      ensures if out.Refunded? && !out.replay then
          && out.payment == inp.payment && out.reason == inp.reason && out.row == |old(refunds)|
          && -0.5 <= inp.amount * 100.0 - out.cents as real < 0.5
          && refunds[..out.row] == old(refunds) && |refunds| == out.row + 1 && |payments| == |old(payments)|
          && var p := refunds[out.row].payment;
             p < |payments| && payments == old(payments)[p := old(payments)[p].(refunded := true)]
        else Now() == old(Now())
    {
      CentsNearest(inp.amount, Cents(inp.amount));
      if inp.amount <= 0.0 { return InvalidArguments; }
      var existing := RowOf(refunds, inp.key);
      if existing.Some? { return Report(Table(payments, refunds), existing.value, true); }
      var p := PaymentOf(payments, inp.payment);
      if p.None? { return NotFound; }
      if payments[p.value].refunded { return AlreadyRefunded; }
      if inp.amount * 100.0 > payments[p.value].cents as real { return InvalidAmount; }
      payments := payments[p.value := payments[p.value].(refunded := true)];
      refunds := refunds + [Refund(p.value, Cents(inp.amount), inp.reason, inp.key)];
      return Report(Table(payments, refunds), |refunds| - 1, false);
    }
  }

  /** One call with nobody else at work: its stages in a row. */
  function Serial(t: Table, inp: Input): (Table, Outcome) {
    if Look(t, inp).Done? then (t, Look(t, inp).outcome)
    else if Check(t, inp).Done? then (t, Check(t, inp).outcome)
    else Commit(t, inp, Check(t, inp).payment)
  }

  // ---------------------------------------------------------------- the stages of one call

  datatype Stage =
    | Looking                  // for a refund with this key
    | Checking                 // the payment, in a second query
    | Committing(payment: nat)
    | Replaying                // after the rollback of a unique violation
    | Done(outcome: Outcome)

  function Look(t: Table, inp: Input): (r: Stage)
    ensures r.Done? || r.Checking?
  {
    if inp.amount <= 0.0 then Done(InvalidArguments)
    else
      var row := RowOf(t.refunds, inp.key);
      if row.Some? then Done(Report(t, row.value, true)) else Checking
  }

  function Check(t: Table, inp: Input): (r: Stage)
    ensures r.Done? || (r.Committing? && r.payment < |t.payments|)
  {
    var p := PaymentOf(t.payments, inp.payment);
    if p.None? then Done(NotFound)
    else if t.payments[p.value].refunded then Done(AlreadyRefunded)
    else if inp.amount * 100.0 > t.payments[p.value].cents as real then Done(InvalidAmount)
    else Committing(p.value)
  }

  /** UNIQUE(idempotency_key): the insert happens or nothing does. */
  function Commit(t: Table, inp: Input, p: nat): (Table, Outcome)
    requires p < |t.payments|
  {
    var row := RowOf(t.refunds, inp.key);
    if row.Some? then (t, Report(t, row.value, true))
    else (Insert(t, p, inp), Report(Insert(t, p, inp), |t.refunds|, false))
  }

  // ---------------------------------------------------------------- serial runs

  lemma RoundingFits(amount: real, cents: int)
    requires 0.0 < amount && amount * 100.0 <= cents as real
    ensures 0 <= Cents(amount) <= cents
  {
  }

  /** Serial calls conserve: every payment has at most one refund and covers it. */
  lemma SerialConserves(t: Table, inp: Input)
    requires Conserved(t) && KeysUnique(t)
    ensures Conserved(Serial(t, inp).0) && KeysUnique(Serial(t, inp).0)
  {
    if Look(t, inp).Checking? && Check(t, inp).Committing? {
      RoundingFits(inp.amount, t.payments[Check(t, inp).payment].cents);
    }
  }

  function Calls(t: Table, inputs: seq<Input>): Table {
    if |inputs| == 0 then t else Serial(Calls(t, inputs[..|inputs| - 1]), inputs[|inputs| - 1]).0
  }

  lemma {:induction false} AllSerialConserve(payments: seq<Payment>, inputs: seq<Input>)
    ensures var t := Calls(Table(payments, []), inputs);
      Conserved(t) && KeysUnique(t)
  {
    if |inputs| > 0 {
      AllSerialConserve(payments, inputs[..|inputs| - 1]);
      SerialConserves(Calls(Table(payments, []), inputs[..|inputs| - 1]), inputs[|inputs| - 1]);
    }
  }

  /** Repeating a successful call changes nothing and reports the same row, as a replay. */
  lemma ReplayIsIdle(t: Table, inp: Input)
    requires Serial(t, inp).1.Refunded?
    ensures var (u, out) := Serial(t, inp);
      var (v, again) := Serial(u, inp);
      v == u && again == out.(replay := true)
  {
    var (u, out) := Serial(t, inp);
    if Look(t, inp).Checking? {
      assert u.refunds[|t.refunds|].key == inp.key;
      LastRow(t.refunds, u.refunds[|t.refunds|]);
    }
  }

  lemma LastRow(refunds: seq<Refund>, r: Refund)
    ensures RowOf(refunds + [r], r.key) == Some(|refunds|)
  {
    assert (refunds + [r])[|refunds|] == r;
  }

  // ---------------------------------------------------------------- any interleaving

  datatype Session = Session(inp: Input, at: Stage)

  datatype State = State(table: Table, calls: map<nat, Session>)

  datatype Action = Begin(inp: Input) | Go

  function Move(s: State, c: nat, at: Stage): State
    requires c in s.calls
  {
    s.(calls := s.calls[c := s.calls[c].(at := at)])
  }

  /** One query, or one commit or rollback, of call `c`. */
  function Apply(s: State, c: nat, a: Action): State {
    match a
    case Begin(inp) => if c in s.calls then s else s.(calls := s.calls[c := Session(inp, Looking)])
    case Go =>
      if c !in s.calls then s
      else
        var inp := s.calls[c].inp;
        match s.calls[c].at
        case Looking => Move(s, c, Look(s.table, inp))
        case Checking => Move(s, c, Check(s.table, inp))
        case Committing(p) =>
          if p >= |s.table.payments| then s
          else if RowOf(s.table.refunds, inp.key).Some? then Move(s, c, Replaying)
          else
            var t := Insert(s.table, p, inp);
            Move(s.(table := t), c, Done(Report(t, |s.table.refunds|, false)))
        case Replaying =>
          var row := RowOf(s.table.refunds, inp.key);
          if row.Some? then Move(s, c, Done(Report(s.table, row.value, true))) else s
        case Done(_) => s
  }

  /** Nobody but `c` moves. */
  function Lone(s: State, c: nat, n: nat): State {
    if n == 0 then s else Apply(Lone(s, c, n - 1), c, Go)
  }

  /** A call that nobody interrupts does, in the machine, what the tool does serially. */
  lemma LoneCall(s: State, c: nat, inp: Input)
    requires c !in s.calls
    ensures var t := Lone(Apply(s, c, Begin(inp)), c, 3);
      var (table, out) := Serial(s.table, inp);
      t == State(table, s.calls[c := Session(inp, Done(out))])
  {
    hide RowOf, PaymentOf;
    var t0 := Apply(s, c, Begin(inp));
    var t1, t2 := Lone(t0, c, 1), Lone(t0, c, 2);
    assert Lone(t0, c, 0) == t0;
    assert t1 == Apply(t0, c, Go) && t2 == Apply(t1, c, Go);
  }

  /** A call that lost the race for its key rolls back and reports the winner's row. */
  lemma LoserReplays(s: State, c: nat)
    requires c in s.calls && s.calls[c].at.Committing? && s.calls[c].at.payment < |s.table.payments|
    requires exists i :: 0 <= i < |s.table.refunds| && s.table.refunds[i].key == s.calls[c].inp.key
    ensures var t := Lone(s, c, 2);
      && c in t.calls && t.table == s.table && t.calls[c].at.Done?
      && var out := t.calls[c].at.outcome;
         && out.Refunded? && out.replay && out.row < |t.table.refunds|
         && var row := t.table.refunds[out.row];
            row.key == s.calls[c].inp.key && out.cents == row.cents && out.reason == row.reason
  {
    hide RowOf, PaymentOf;
    assert Lone(s, c, 0) == s;
    assert Lone(s, c, 1) == Apply(s, c, Go);
  }

  datatype Turn = Turn(call: nat, action: Action)

  function Run(payments: seq<Payment>, schedule: seq<Turn>): State {
    if |schedule| == 0 then State(Table(payments, []), map[])
    else
      var t := schedule[|schedule| - 1];
      Apply(Run(payments, schedule[..|schedule| - 1]), t.call, t.action)
  }

  /** Row `row` is the refund that `inp` asks for. */
  predicate AsAsked(t: Table, row: nat, inp: Input) {
    && row < |t.refunds| && t.refunds[row].payment < |t.payments|
    && t.payments[t.refunds[row].payment].id == inp.payment
    && t.refunds[row].cents == Cents(inp.amount) && t.refunds[row].reason == inp.reason && t.refunds[row].key == inp.key
  }

  ghost predicate Accounted(s: State) {
    forall row :: 0 <= row < |s.table.refunds| ==> SomeoneAsked(s, row)
  }

  /** Some call asked for refund `row`, and reported it as new. */
  ghost predicate SomeoneAsked(s: State, row: nat) {
    exists c :: c in s.calls && Succeeded(s.calls[c]) && s.calls[c].at.outcome.row == row &&
      !s.calls[c].at.outcome.replay && AsAsked(s.table, row, s.calls[c].inp)
  }

  ghost predicate CallOk(t: Table, c: Session) {
    match c.at
    case Committing(p) =>
      p < |t.payments| && t.payments[p].id == c.inp.payment && 0.0 < c.inp.amount &&
        c.inp.amount * 100.0 <= t.payments[p].cents as real
    case Replaying => RowOf(t.refunds, c.inp.key).Some?
    case Done(Refunded(row, id, cents, reason, replay)) =>
      && row < |t.refunds| && t.refunds[row].key == c.inp.key && c.at.outcome == Report(t, row, replay)
      && (!replay ==> AsAsked(t, row, c.inp))
    case Checking => 0.0 < c.inp.amount
    case _ => true
  }

  ghost predicate Covered(t: Table) {
    forall i :: 0 <= i < |t.refunds| ==>
      var r := t.refunds[i];
      r.payment < |t.payments| && 0 <= r.cents <= t.payments[r.payment].cents && t.payments[r.payment].refunded
  }

  ghost predicate Inv(s: State) {
    && KeysUnique(s.table) && Covered(s.table)
    && forall c :: c in s.calls ==> CallOk(s.table, s.calls[c])
  }

  lemma {:induction false} RowStays(refunds: seq<Refund>, r: Refund, key: string)
    ensures RowOf(refunds, key).Some? ==> RowOf(refunds + [r], key).Some?
  {
    if RowOf(refunds, key).Some? { assert (refunds + [r])[RowOf(refunds, key).value].key == key; }
  }

  lemma InsertKeepsCall(t: Table, p: nat, inp: Input, c: Session)
    requires p < |t.payments| && CallOk(t, c)
    ensures CallOk(Insert(t, p, inp), c)
  {
    if c.at.Replaying? { RowStays(t.refunds, Refund(p, Cents(inp.amount), inp.reason, inp.key), c.inp.key); }
  }

  lemma InsertKeepsTable(t: Table, p: nat, inp: Input)
    requires KeysUnique(t) && Covered(t) && p < |t.payments| && RowOf(t.refunds, inp.key).None?
    requires 0.0 < inp.amount && inp.amount * 100.0 <= t.payments[p].cents as real
    ensures KeysUnique(Insert(t, p, inp)) && Covered(Insert(t, p, inp))
  {
    RoundingFits(inp.amount, t.payments[p].cents);
  }

  lemma Keeps(s: State, c: nat, a: Action)
    requires Inv(s)
    ensures Inv(Apply(s, c, a))
  {
    if a.Go? && c in s.calls {
      var call := s.calls[c];
      assert CallOk(s.table, call);
      if call.at.Committing? && RowOf(s.table.refunds, call.inp.key).None? {
        var t := Apply(s, c, a);
        InsertKeepsTable(s.table, call.at.payment, call.inp);
        hide KeysUnique, Covered, RowOf;
        forall d | d in t.calls ensures CallOk(t.table, t.calls[d]) {
          if d != c { InsertKeepsCall(s.table, call.at.payment, call.inp, s.calls[d]); }
        }
      }
    }
  }

  lemma {:induction false} Holds(payments: seq<Payment>, schedule: seq<Turn>)
    ensures Inv(Run(payments, schedule))
  {
    hide Apply;
    if |schedule| > 0 {
      var t := schedule[|schedule| - 1];
      Holds(payments, schedule[..|schedule| - 1]);
      Keeps(Run(payments, schedule[..|schedule| - 1]), t.call, t.action);
    }
  }

  lemma AccountedKeeps(s: State, c: nat, a: Action)
    requires Inv(s) && Accounted(s)
    ensures Accounted(Apply(s, c, a))
  {
    hide KeysUnique, Covered, RowOf, Look, Check;
    var t := Apply(s, c, a);
    if c in s.calls { assert CallOk(s.table, s.calls[c]); }
    forall row | 0 <= row < |t.table.refunds| ensures SomeoneAsked(t, row) {
      if row < |s.table.refunds| {
        assert SomeoneAsked(s, row);
        var d :| d in s.calls && Succeeded(s.calls[d]) && s.calls[d].at.outcome.row == row &&
          !s.calls[d].at.outcome.replay && AsAsked(s.table, row, s.calls[d].inp);
        assert t.calls[d] == s.calls[d];
        assert AsAsked(t.table, row, t.calls[d].inp);
      } else {
        assert Succeeded(t.calls[c]) && AsAsked(t.table, row, t.calls[c].inp);
      }
    }
  }

  lemma {:induction false} AccountedHolds(payments: seq<Payment>, schedule: seq<Turn>)
    ensures Accounted(Run(payments, schedule))
  {
    hide Apply;
    if |schedule| > 0 {
      var t := schedule[|schedule| - 1];
      AccountedHolds(payments, schedule[..|schedule| - 1]);
      Holds(payments, schedule[..|schedule| - 1]);
      AccountedKeeps(Run(payments, schedule[..|schedule| - 1]), t.call, t.action);
    }
  }

  /** However calls interleave: a key has at most one refund row, no refund exceeds its payment, all
      successful calls with one key report the same row, and every row is the very refund, payment,
      amount, reason and key, that one call asked for and reported as new. */
  lemma OneRefundPerKey(payments: seq<Payment>, schedule: seq<Turn>, c: nat, d: nat)
    ensures var s := Run(payments, schedule);
      && KeysUnique(s.table) && Covered(s.table) && Accounted(s)
      && (c in s.calls && d in s.calls && Succeeded(s.calls[c]) && Succeeded(s.calls[d])
          && s.calls[c].inp.key == s.calls[d].inp.key ==>
            s.calls[c].at.outcome.(replay := true) == s.calls[d].at.outcome.(replay := true))
  {
    Holds(payments, schedule);
    AccountedHolds(payments, schedule);
    var s := Run(payments, schedule);
    hide Run, Accounted;
    if c in s.calls && d in s.calls {
      assert CallOk(s.table, s.calls[c]) && CallOk(s.table, s.calls[d]);
    }
  }

  predicate Succeeded(c: Session) {
    c.at.Done? && c.at.outcome.Refunded?
  }

  // ---------------------------------------------------------------- conservation, exactly

  /** The turn inserts a refund for a payment that has been refunded since the call's check: the commit
      looks at the key, and not at the payment's status again. */
  predicate DoubleInsert(s: State, t: Turn) {
    && t.action.Go? && t.call in s.calls && s.calls[t.call].at.Committing?
    && var p := s.calls[t.call].at.payment;
       p < |s.table.payments| && RowOf(s.table.refunds, s.calls[t.call].inp.key).None? && s.table.payments[p].refunded
  }

  ghost predicate NeverDoubles(payments: seq<Payment>, schedule: seq<Turn>) {
    forall i :: 0 <= i < |schedule| ==> !DoubleInsert(Run(payments, schedule[..i]), schedule[i])
  }

  predicate HasRefund(t: Table, p: nat) {
    exists i :: 0 <= i < |t.refunds| && t.refunds[i].payment == p
  }

  /** A payment that a call found unrefunded, and that is refunded now, was refunded by a row. */
  ghost predicate Explained(s: State) {
    forall c :: c in s.calls && s.calls[c].at.Committing? && s.calls[c].at.payment < |s.table.payments| ==>
      (s.table.payments[s.calls[c].at.payment].refunded ==> HasRefund(s.table, s.calls[c].at.payment))
  }

  lemma InsertRefunds(t: Table, p: nat, inp: Input, q: nat)
    requires p < |t.payments|
    ensures HasRefund(Insert(t, p, inp), q) <==> HasRefund(t, q) || q == p
  {
    var u := Insert(t, p, inp);
    assert u.refunds[|t.refunds|].payment == p;
    if HasRefund(t, q) {
      var i :| 0 <= i < |t.refunds| && t.refunds[i].payment == q;
      assert u.refunds[i].payment == q;
    }
  }

  lemma ExplainedKeeps(s: State, c: nat, a: Action)
    requires Explained(s)
    ensures Explained(Apply(s, c, a))
  {
    hide HasRefund, RowOf;
    if a.Go? && c in s.calls && s.calls[c].at.Committing? && s.calls[c].at.payment < |s.table.payments| {
      forall q: nat ensures HasRefund(Insert(s.table, s.calls[c].at.payment, s.calls[c].inp), q) <==>
        HasRefund(s.table, q) || q == s.calls[c].at.payment
      {
        InsertRefunds(s.table, s.calls[c].at.payment, s.calls[c].inp, q);
      }
    }
  }

  /** What one turn does to conservation. */
  lemma ConservedStep(s: State, t: Turn)
    requires Inv(s) && Explained(s)
    ensures Conserved(Apply(s, t.call, t.action).table) <==> Conserved(s.table) && !DoubleInsert(s, t)
  {
    if t.action.Go? && t.call in s.calls && s.calls[t.call].at.Committing? {
      var call := s.calls[t.call];
      assert CallOk(s.table, call);
      if RowOf(s.table.refunds, call.inp.key).None? { InsertConserves(s.table, call.at.payment, call.inp); }
    }
    hide Conserved;
  }

  lemma SecondBreaks(t: Table, p: nat, inp: Input)
    requires p < |t.payments| && HasRefund(t, p)
    ensures !Conserved(Insert(t, p, inp))
  {
    var u := Insert(t, p, inp);
    var i :| 0 <= i < |t.refunds| && t.refunds[i].payment == p;
    assert u.refunds[i].payment == u.refunds[|t.refunds|].payment;
  }

  lemma InsertConserves(t: Table, p: nat, inp: Input)
    requires Covered(t) && p < |t.payments| && 0.0 < inp.amount && inp.amount * 100.0 <= t.payments[p].cents as real
    requires t.payments[p].refunded ==> HasRefund(t, p)
    ensures Conserved(Insert(t, p, inp)) <==> Conserved(t) && !t.payments[p].refunded
  {
    RoundingFits(inp.amount, t.payments[p].cents);
    if t.payments[p].refunded { SecondBreaks(t, p, inp); }
    var u := Insert(t, p, inp);
    if Conserved(u) {
      forall i, j | 0 <= i < j < |t.refunds| ensures t.refunds[i].payment != t.refunds[j].payment {
        assert u.refunds[i].payment != u.refunds[j].payment;
      }
    }
  }

  lemma DoublesPrefix(payments: seq<Payment>, schedule: seq<Turn>)
    requires |schedule| > 0
    ensures var front, last := schedule[..|schedule| - 1], schedule[|schedule| - 1];
      NeverDoubles(payments, schedule) <==> NeverDoubles(payments, front) && !DoubleInsert(Run(payments, front), last)
  {
    hide Run, DoubleInsert;
    var front := schedule[..|schedule| - 1];
    forall i | 0 <= i < |front| ensures front[..i] == schedule[..i] {}
  }

  /** Each payment has at most one refund, which it covers, if and only if no call inserts a refund for a
      payment that was refunded after its check. */
  lemma {:induction false} ConservedExactly(payments: seq<Payment>, schedule: seq<Turn>)
    ensures Conserved(Run(payments, schedule).table) <==> NeverDoubles(payments, schedule)
    ensures Explained(Run(payments, schedule))
  {
    hide Apply, Conserved, Explained, DoubleInsert;
    if |schedule| > 0 {
      var front, last := schedule[..|schedule| - 1], schedule[|schedule| - 1];
      ConservedExactly(payments, front);
      Holds(payments, front);
      ExplainedKeeps(Run(payments, front), last.call, last.action);
      ConservedStep(Run(payments, front), last);
      DoublesPrefix(payments, schedule);
    } else {
      NothingYet(payments);
    }
  }

  lemma NothingYet(payments: seq<Payment>)
    ensures Conserved(Table(payments, [])) && Explained(State(Table(payments, []), map[]))
  {
  }

  /** No two calls are between the check and the commit of the same payment. */
  ghost predicate Exclusive(s: State) {
    forall c, d :: c in s.calls && d in s.calls && c != d && s.calls[c].at.Committing? && s.calls[d].at.Committing? ==>
      s.calls[c].at.payment != s.calls[d].at.payment
  }

  ghost predicate ExclusiveRun(payments: seq<Payment>, schedule: seq<Turn>) {
    && Exclusive(Run(payments, schedule))
    && (|schedule| > 0 ==> ExclusiveRun(payments, schedule[..|schedule| - 1]))
  }

  /** What a call found unrefunded still is. */
  ghost predicate Fresh(s: State) {
    forall c :: c in s.calls && s.calls[c].at.Committing? && s.calls[c].at.payment < |s.table.payments| ==>
      !s.table.payments[s.calls[c].at.payment].refunded
  }

  lemma FreshKeeps(s: State, c: nat, a: Action)
    requires Fresh(s) && Exclusive(s)
    ensures Fresh(Apply(s, c, a)) && !DoubleInsert(s, Turn(c, a))
  {
    hide RowOf;
  }

  lemma {:induction false} ExclusiveNeverDoubles(payments: seq<Payment>, schedule: seq<Turn>)
    requires ExclusiveRun(payments, schedule)
    ensures Fresh(Run(payments, schedule)) && NeverDoubles(payments, schedule)
  {
    hide Apply, Fresh, DoubleInsert;
    if |schedule| > 0 {
      var front, last := schedule[..|schedule| - 1], schedule[|schedule| - 1];
      ExclusiveNeverDoubles(payments, front);
      FreshKeeps(Run(payments, front), last.call, last.action);
      DoublesPrefix(payments, schedule);
    } else {
      NothingFresh(payments);
    }
  }

  lemma NothingFresh(payments: seq<Payment>)
    ensures Fresh(State(Table(payments, []), map[]))
  {
  }

  /** What callers can do to stay on the right side: calls on one payment that do not overlap conserve,
      whatever the keys and however calls on different payments interleave. */
  lemma ConservedWhenExclusive(payments: seq<Payment>, schedule: seq<Turn>)
    requires ExclusiveRun(payments, schedule)
    ensures Conserved(Run(payments, schedule).table)
  {
    ConservedExactly(payments, schedule);
    ExclusiveNeverDoubles(payments, schedule);
    hide *;
  }

  function Refund100(key: string): Input {
    Input("PAY-1", 1.0, "duplicate payment", key)
  }

  /** Two calls, two keys, one payment: both check before either commits. */
  const Race: seq<Turn> :=
    [Turn(0, Begin(Refund100("a"))), Turn(1, Begin(Refund100("b"))),
     Turn(0, Go), Turn(1, Go), Turn(0, Go), Turn(1, Go), Turn(0, Go), Turn(1, Go)]

  const Paid: seq<Payment> := [Payment("PAY-1", 100, false)]
  const Before: Table := Table(Paid, [])
  const Between: Table := Insert(Before, 0, Refund100("a"))
  const After: Table := Insert(Between, 0, Refund100("b"))

  function Stages(t: Table, a: Stage, b: Stage): State {
    State(t, map[0 := Session(Refund100("a"), a), 1 := Session(Refund100("b"), b)])
  }

  /** The state after `i` turns of the race. */
  function RaceAt(i: nat): State {
    if i == 0 then State(Before, map[])
    else if i == 1 then State(Before, map[0 := Session(Refund100("a"), Looking)])
    else if i == 2 then Stages(Before, Looking, Looking)
    else if i == 3 then Stages(Before, Checking, Looking)
    else if i == 4 then Stages(Before, Checking, Checking)
    else if i == 5 then Stages(Before, Committing(0), Checking)
    else if i == 6 then Stages(Before, Committing(0), Committing(0))
    else if i == 7 then Stages(Between, Done(Report(Between, 0, false)), Committing(0))
    else Stages(After, Done(Report(Between, 0, false)), Done(Report(After, 1, false)))
  }

  lemma RaceReads()
    ensures forall k :: Look(Before, Refund100(k)) == Checking && Check(Before, Refund100(k)) == Committing(0)
    ensures RowOf(Before.refunds, "a").None? && RowOf(Between.refunds, "b").None?
  {
    assert Paid[..0] == [];
    assert PaymentOf(Paid, "PAY-1") == Some(0);
    assert Between.refunds[..0] == [];
  }

  lemma RaceStep(i: nat)
    requires i < 8
    ensures Apply(RaceAt(i), Race[i].call, Race[i].action) == RaceAt(i + 1)
  {
    RaceReads();
    hide Look, Check, RowOf;
    assert |Between.refunds| == 1;
  }

  lemma {:induction false} RaceRuns(n: nat)
    requires n <= 8
    ensures Run(Paid, Race[..n]) == RaceAt(n)
  {
    hide Apply;
    if n > 0 {
      RaceRuns(n - 1);
      RaceStep(n - 1);
      assert Race[..n][..n - 1] == Race[..n - 1];
    }
  }

  /** Overlapping calls with different keys can refund a payment twice: the exclusion above is needed. */
  lemma RaceRefundsTwice()
    ensures var t := Run(Paid, Race).table;
      |t.refunds| == 2 && t.refunds[0].payment == t.refunds[1].payment && !Conserved(t)
  {
    RaceRuns(8);
    assert Race[..8] == Race;
    hide Run;
    assert After.refunds[0].payment == After.refunds[1].payment;
  }
}
