/** `_deploy`: one row per idempotency key, under any interleaving of lookups and commits. */
module Devops {
  import opened Base

  datatype Environment = Staging | Production

  /** `service` is the name of the row's service. */
  datatype Deployment = Deployment(service: string, environment: Environment, version: string, key: Option<string>)

  datatype Input = Input(service: string, version: string, environment: Environment, key: Option<string>)

  /** The output names the REQUESTED service, and the environment and version of the row it reports. */
  datatype Outcome = Deployed(row: nat, service: string, environment: Environment, version: string) | NotFound

  /** The row with this key; NULL keys never match. */
  function RowOf(rows: seq<Deployment>, key: Option<string>): (r: Option<nat>)
    ensures r.Some? ==> key.Some? && r.value < |rows| && rows[r.value].key == key
    ensures r.None? && key.Some? ==> forall i :: 0 <= i < |rows| ==> rows[i].key != key
  {
    if |rows| == 0 || key.None? then None
    else if rows[|rows| - 1].key == key then Some(|rows| - 1)
    else RowOf(rows[..|rows| - 1], key)
  }

  function Report(rows: seq<Deployment>, row: nat, inp: Input): Outcome
    requires row < |rows|
  {
    Deployed(row, inp.service, rows[row].environment, rows[row].version)
  }

  function NewRow(inp: Input): Deployment {
    Deployment(inp.service, inp.environment, inp.version, inp.key)
  }

  // ---------------------------------------------------------------- the stages of one call

  datatype Stage = Looking | Committing | Replaying | Done(outcome: Outcome)

  /** The service, then a row with this key. */
  function Look(services: set<string>, rows: seq<Deployment>, inp: Input): (r: Stage)
    ensures r.Done? || r.Committing?
  {
    if inp.service !in services then Done(NotFound)
    else
      var existing := RowOf(rows, inp.key);
      if existing.Some? then Done(Report(rows, existing.value, inp)) else Committing
  }

  /** UNIQUE(idempotency_key): the insert happens, or nothing does and the call has to replay. */
  function Commit(rows: seq<Deployment>, inp: Input): (seq<Deployment>, Stage) {
    if RowOf(rows, inp.key).Some? then (rows, Replaying)
    else (rows + [NewRow(inp)], Done(Report(rows + [NewRow(inp)], |rows|, inp)))
  }

  function Replay(rows: seq<Deployment>, inp: Input): Stage {
    var existing := RowOf(rows, inp.key);
    if existing.Some? then Done(Report(rows, existing.value, inp)) else Replaying
  }

  // ---------------------------------------------------------------- the tool, run serially

  /** One call with nobody else at work: its stages in a row. */
  function Serial(services: set<string>, rows: seq<Deployment>, inp: Input): (seq<Deployment>, Outcome) {
    if Look(services, rows, inp).Done? then (rows, Look(services, rows, inp).outcome)
    else (Commit(rows, inp).0, Commit(rows, inp).1.outcome)
  }

  class DeployTool {
    const services: set<string>
    var rows: seq<Deployment>

    constructor (services: set<string>)
      ensures this.services == services && rows == []
    {
      this.services, this.rows := services, [];
    }

    method Deploy(inp: Input) returns (out: Outcome)
      modifies this
      ensures rows == Serial(services, old(rows), inp).0 && out == Serial(services, old(rows), inp).1
      ensures out.NotFound? <==> inp.service !in services
      ensures out.Deployed? ==>
        && out.row < |rows| && rows[out.row].key == inp.key && out.service == inp.service
        && out.environment == rows[out.row].environment && out.version == rows[out.row].version
      ensures
        if out.Deployed? && !(inp.key.Some? && exists i :: 0 <= i < |old(rows)| && old(rows)[i].key == inp.key) then
          && rows[..out.row] == old(rows) && |rows| == out.row + 1 && rows[out.row].service == inp.service
          && rows[out.row].environment == inp.environment && rows[out.row].version == inp.version
        else rows == old(rows)
    {
      if inp.service !in services { return NotFound; }
      if inp.key.Some? {
        var existing := RowOf(rows, inp.key);
        if existing.Some? { return Report(rows, existing.value, inp); }
      }
      rows := rows + [NewRow(inp)];
      return Report(rows, |rows| - 1, inp);
    }
  }

  /** Repeating a keyed deploy adds nothing and gives the same answer; without a key it deploys again. */
  lemma RepeatedDeploy(services: set<string>, rows: seq<Deployment>, inp: Input)
    requires inp.service in services
    ensures var (after, out) := Serial(services, rows, inp);
      var (again, same) := Serial(services, after, inp);
      if inp.key.Some? then again == after && same == out else |again| == |after| + 1 && same.row == out.row + 1
  {
    var (after, out) := Serial(services, rows, inp);
    if RowOf(rows, inp.key).None? { assert after[|rows|].key == inp.key; }
  }

  // ---------------------------------------------------------------- any interleaving

  datatype Session = Session(inp: Input, at: Stage)

  datatype State = State(rows: seq<Deployment>, calls: map<nat, Session>)

  datatype Action = Begin(inp: Input) | Go

  function Move(s: State, c: nat, at: Stage): State
    requires c in s.calls
  {
    s.(calls := s.calls[c := s.calls[c].(at := at)])
  }

  /** One query, or one commit or rollback, of call `c`. */
  function Apply(services: set<string>, s: State, c: nat, a: Action): State {
    match a
    case Begin(inp) => if c in s.calls then s else s.(calls := s.calls[c := Session(inp, Looking)])
    case Go =>
      if c !in s.calls then s
      else
        var inp := s.calls[c].inp;
        match s.calls[c].at
        case Looking => Move(s, c, Look(services, s.rows, inp))
        case Committing => Move(s.(rows := Commit(s.rows, inp).0), c, Commit(s.rows, inp).1)
        case Replaying => Move(s, c, Replay(s.rows, inp))
        case Done(_) => s
  }

  /** Nobody but `c` moves. */
  function Lone(services: set<string>, s: State, c: nat, n: nat): State {
    if n == 0 then s else Apply(services, Lone(services, s, c, n - 1), c, Go)
  }

  /** A call that nobody interrupts does, in the machine, what the tool does serially. */
  lemma LoneCall(services: set<string>, s: State, c: nat, inp: Input)
    requires c !in s.calls
    ensures var t := Lone(services, Apply(services, s, c, Begin(inp)), c, 2);
      var (rows, out) := Serial(services, s.rows, inp);
      t == State(rows, s.calls[c := Session(inp, Done(out))])
  {
    hide RowOf;
    var t0 := Apply(services, s, c, Begin(inp));
    var t1 := Lone(services, t0, c, 1);
    assert Lone(services, t0, c, 0) == t0;
    assert t1 == Apply(services, t0, c, Go);
  }

  /** A call that lost the race for its key rolls back and reports the winner's row. */
  lemma LoserReplays(services: set<string>, s: State, c: nat)
    requires c in s.calls && s.calls[c].at.Committing? && s.calls[c].inp.key.Some?
    requires exists i :: 0 <= i < |s.rows| && s.rows[i].key == s.calls[c].inp.key
    ensures var t := Lone(services, s, c, 2);
      && c in t.calls && t.rows == s.rows && t.calls[c].at.Done?
      && var out := t.calls[c].at.outcome;
         && out.Deployed? && out.row < |t.rows| && t.rows[out.row].key == s.calls[c].inp.key
         && out.environment == t.rows[out.row].environment && out.version == t.rows[out.row].version
  {
    hide RowOf;
    assert Lone(services, s, c, 0) == s;
    assert Lone(services, s, c, 1) == Apply(services, s, c, Go);
  }

  datatype Turn = Turn(call: nat, action: Action)

  function Run(services: set<string>, schedule: seq<Turn>): State {
    if |schedule| == 0 then State([], map[])
    else
      var t := schedule[|schedule| - 1];
      Apply(services, Run(services, schedule[..|schedule| - 1]), t.call, t.action)
  }

  ghost predicate KeysUnique(rows: seq<Deployment>) {
    forall i, j :: 0 <= i < j < |rows| && rows[i].key.Some? ==> rows[i].key != rows[j].key
  }

  ghost predicate CallOk(rows: seq<Deployment>, c: Session) {
    c.at.Done? && c.at.outcome.Deployed? ==>
      c.at.outcome.row < |rows| && rows[c.at.outcome.row].key == c.inp.key &&
        c.at.outcome == Report(rows, c.at.outcome.row, c.inp)
  }

  ghost predicate Inv(s: State) {
    KeysUnique(s.rows) && forall c :: c in s.calls ==> CallOk(s.rows, s.calls[c])
  }

  lemma Keeps(services: set<string>, s: State, c: nat, a: Action)
    requires Inv(s)
    ensures Inv(Apply(services, s, c, a))
  {
    if c in s.calls { assert CallOk(s.rows, s.calls[c]); }
  }

  lemma {:induction false} Holds(services: set<string>, schedule: seq<Turn>)
    ensures Inv(Run(services, schedule))
  {
    hide Apply;
    if |schedule| > 0 {
      var t := schedule[|schedule| - 1];
      Holds(services, schedule[..|schedule| - 1]);
      Keeps(services, Run(services, schedule[..|schedule| - 1]), t.call, t.action);
    }
  }

  /** Some call asked for exactly this row, and reported it. */
  ghost predicate SomeoneAsked(s: State, row: nat)
    requires row < |s.rows|
  {
    exists c :: c in s.calls && Succeeded(s.calls[c]) && s.calls[c].at.outcome.row == row &&
      s.rows[row] == NewRow(s.calls[c].inp)
  }

  ghost predicate Accounted(s: State) {
    forall row :: 0 <= row < |s.rows| ==> SomeoneAsked(s, row)
  }

  lemma AccountedKeeps(services: set<string>, s: State, c: nat, a: Action)
    requires Accounted(s)
    ensures Accounted(Apply(services, s, c, a))
  {
    hide RowOf;
    var t := Apply(services, s, c, a);
    forall row | 0 <= row < |t.rows| ensures SomeoneAsked(t, row) {
      if row < |s.rows| {
        assert SomeoneAsked(s, row);
        var d :| d in s.calls && Succeeded(s.calls[d]) && s.calls[d].at.outcome.row == row &&
          s.rows[row] == NewRow(s.calls[d].inp);
        assert t.calls[d] == s.calls[d] && t.rows[row] == s.rows[row];
      } else {
        assert Succeeded(t.calls[c]);
      }
    }
  }

  lemma {:induction false} AccountedHolds(services: set<string>, schedule: seq<Turn>)
    ensures Accounted(Run(services, schedule))
  {
    hide Apply, SomeoneAsked;
    if |schedule| > 0 {
      var t := schedule[|schedule| - 1];
      AccountedHolds(services, schedule[..|schedule| - 1]);
      AccountedKeeps(services, Run(services, schedule[..|schedule| - 1]), t.call, t.action);
    }
  }

  /** However calls interleave: one row per key, every row is one that some call asked for and reported,
      and successful calls with the same key and service have the same answer. */
  lemma OneDeploymentPerKey(services: set<string>, schedule: seq<Turn>, c: nat, d: nat)
    ensures var s := Run(services, schedule);
      && KeysUnique(s.rows) && Accounted(s)
      && (c in s.calls && d in s.calls && Succeeded(s.calls[c]) && Succeeded(s.calls[d])
          && s.calls[c].inp.key.Some? && s.calls[c].inp.key == s.calls[d].inp.key ==>
            && s.calls[c].at.outcome.row == s.calls[d].at.outcome.row
            && (s.calls[c].inp.service == s.calls[d].inp.service ==> s.calls[c].at.outcome == s.calls[d].at.outcome))
  {
    Holds(services, schedule);
    AccountedHolds(services, schedule);
    var s := Run(services, schedule);
    hide Run, Accounted;
    if c in s.calls && d in s.calls {
      assert CallOk(s.rows, s.calls[c]) && CallOk(s.rows, s.calls[d]);
    }
  }

  predicate Succeeded(c: Session) {
    c.at.Done? && c.at.outcome.Deployed?
  }
}
