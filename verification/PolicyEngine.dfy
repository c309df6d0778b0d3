/** The policy engine: three ranks of rows, the narrowest that applies decides, and a declarative
    specification that does not know the order of the rows. */
module PolicyEngine {
  import opened Base
  import opened PolicyConditions

  /** A `policies` row. */
  datatype Policy = Policy(
    key: string,
    agentId: Option<nat>,
    agentType: Option<string>,
    tool: nat,
    priority: int,
    enabled: bool,
    action: PolicyAction,
    conditions: Json)

  datatype Query = Query(agentId: nat, agentType: string, tool: nat, context: Json)

  /** `Decided` with no key: no match, a conflict, or a condition error.  `Raised`: an exception other
      than PolicyConditionError leaves `evaluate`. */
  datatype Result = Decided(action: PolicyAction, key: Option<string>) | Raised

  // ---------------------------------------------------------------- the order of keys

  /** Python's `<=` on strings. */
  predicate KeyAtMost(a: string, b: string) {
    if |a| == 0 then true
    else if |b| == 0 then false
    else if a[0] != b[0] then a[0] < b[0]
    else KeyAtMost(a[1..], b[1..])
  }

  lemma {:induction false} KeysTotal(a: string, b: string)
    ensures KeyAtMost(a, b) || KeyAtMost(b, a)
    ensures KeyAtMost(a, b) && KeyAtMost(b, a) ==> a == b
  {
    if |a| > 0 && |b| > 0 && a[0] == b[0] {
      KeysTotal(a[1..], b[1..]);
      assert a == [a[0]] + a[1..] && b == [b[0]] + b[1..];
    }
  }

  lemma {:induction false} KeysTransitive(a: string, b: string, c: string)
    requires KeyAtMost(a, b) && KeyAtMost(b, c)
    ensures KeyAtMost(a, c)
  {
    if |a| > 0 && |b| > 0 && |c| > 0 && a[0] == b[0] == c[0] { KeysTransitive(a[1..], b[1..], c[1..]); }
  }

  /** Lexical order: the first difference decides, and a prefix comes first. */
  lemma {:induction false} KeysLexical(p: string, x: char, s: string, y: char, t: string)
    requires x < y
    ensures KeyAtMost(p + [x] + s, p + [y] + t) && !KeyAtMost(p + [y] + t, p + [x] + s)
    ensures KeyAtMost(p, p + [x] + s) && !KeyAtMost(p + [x] + s, p)
  {
    var a, b := p + [x] + s, p + [y] + t;
    if |p| > 0 {
      KeysLexical(p[1..], x, s, y, t);
      assert a[1..] == p[1..] + [x] + s && b[1..] == p[1..] + [y] + t;
    } else {
      assert a[0] == x && b[0] == y;
    }
  }

  // ---------------------------------------------------------------- ranks

  /** 1: this agent; 2: this agent's type; 3: the tool only; 0: the row says nothing about the query. */
  function Rank(p: Policy, q: Query): nat {
    if !p.enabled || p.tool != q.tool then 0
    else if p.agentId == Some(q.agentId) then 1
    else if p.agentId.None? && p.agentType == Some(q.agentType) then 2
    else if p.agentId.None? && p.agentType.None? then 3
    else 0
  }

  function Applies(parse: Parser, p: Policy, q: Query): Outcome {
    EvaluateConditions(parse, p.conditions, q.context)
  }

  predicate Errs(parse: Parser, p: Policy, q: Query) {
    !Applies(parse, p, q).Is?
  }

  predicate Matches(parse: Parser, p: Policy, q: Query) {
    Applies(parse, p, q) == Is(true)
  }

  // ---------------------------------------------------------------- the declarative specification

  /** A matching row of rank `r` that no matching row of that rank outranks in priority. */
  ghost predicate Top(parse: Parser, rows: set<Policy>, q: Query, r: nat, p: Policy) {
    && p in rows && Rank(p, q) == r && Matches(parse, p, q)
    && forall o :: o in rows && Rank(o, q) == r && Matches(parse, o, q) ==> o.priority <= p.priority
  }

  /** Rank `r` settles the query: a condition there errs, or one matches. */
  ghost predicate Decisive(parse: Parser, rows: set<Policy>, q: Query, r: nat) {
    exists p :: p in rows && Rank(p, q) == r && (Errs(parse, p, q) || Matches(parse, p, q))
  }

  ghost predicate Faulty(parse: Parser, rows: set<Policy>, q: Query, r: nat) {
    exists p :: p in rows && Rank(p, q) == r && Errs(parse, p, q)
  }

  /** What rank `r` says when it is the one that decides. */
  ghost predicate RankSays(parse: Parser, rows: set<Policy>, q: Query, r: nat, action: PolicyAction,
      key: Option<string>)
  {
    if Faulty(parse, rows, q, r) then action.Block? && key.None?
    else if exists o, p :: Top(parse, rows, q, r, o) && Top(parse, rows, q, r, p) && o.action != p.action then
      action.Block? && key.None?
    else
      exists p :: Top(parse, rows, q, r, p) && action == p.action && key == Some(p.key) &&
        forall o :: Top(parse, rows, q, r, o) ==> KeyAtMost(p.key, o.key)
  }

  /** The decision, as a relation on the SET of rows. */
  ghost predicate Says(parse: Parser, rows: set<Policy>, q: Query, action: PolicyAction, key: Option<string>) {
    if Decisive(parse, rows, q, 1) then RankSays(parse, rows, q, 1, action, key)
    else if Decisive(parse, rows, q, 2) then RankSays(parse, rows, q, 2, action, key)
    else if Decisive(parse, rows, q, 3) then RankSays(parse, rows, q, 3, action, key)
    else action.Block? && key.None?
  }

  /** What the gateway makes of a result: an exception is a BLOCK. */
  function Effective(r: Result): (PolicyAction, Option<string>) {
    match r
    case Decided(a, k) => (a, k)
    case Raised => (Block, None)
  }

  function Rows(policies: seq<Policy>): set<Policy> {
    set p | p in policies
  }

  // ---------------------------------------------------------------- the engine

  /** The list comprehensions of `evaluate`: the rows of one rank, in the order of the table. */
  function RankList(policies: seq<Policy>, q: Query, r: nat): (list: seq<Policy>)
    ensures forall p :: p in list <==> p in policies && Rank(p, q) == r
  {
    if |policies| == 0 then []
    else
      var rest := RankList(policies[..|policies| - 1], q, r);
      var p := policies[|policies| - 1];
      assert policies == policies[..|policies| - 1] + [p];
      if Rank(p, q) == r then rest + [p] else rest
  }

  /** `max(p.priority for p in matched)`. */
  method MaxPriority(matched: seq<Policy>) returns (top: int)
    requires |matched| > 0
    ensures exists p :: p in matched && p.priority == top
    ensures forall p :: p in matched ==> p.priority <= top
  {
    top := matched[0].priority;
    for i := 1 to |matched|
      invariant exists k :: 0 <= k < |matched| && matched[k].priority == top
      invariant forall k :: 0 <= k < i ==> matched[k].priority <= top
    {
      if matched[i].priority > top { top := matched[i].priority; }
    }
  }

  /** `sorted(top, key=...)[0]`. */
  method FirstByKey(top: seq<Policy>) returns (chosen: Policy)
    requires |top| > 0
    ensures chosen in top
    ensures forall o :: o in top ==> KeyAtMost(chosen.key, o.key)
  {
    chosen := top[0];
    KeysTotal(chosen.key, chosen.key);
    for i := 1 to |top|
      invariant chosen in top
      invariant forall k :: 0 <= k < i ==> KeyAtMost(chosen.key, top[k].key)
    {
      KeysTotal(chosen.key, top[i].key);
      KeysTotal(top[i].key, top[i].key);
      if !KeyAtMost(chosen.key, top[i].key) {
        forall k | 0 <= k < i ensures KeyAtMost(top[i].key, top[k].key) {
          KeysTransitive(top[i].key, chosen.key, top[k].key);
        }
        chosen := top[i];
      }
    }
  }

  /** `_resolve_rank`; None falls through to the next rank. */
  method ResolveRank(parse: Parser, policies: seq<Policy>, q: Query, ghost rows: set<Policy>, ghost r: nat)
    returns (res: Option<Result>)
    requires forall p :: p in policies <==> p in rows && Rank(p, q) == r
    ensures res.None? <==> !Decisive(parse, rows, q, r)
    ensures res.Some? ==> RankSays(parse, rows, q, r, Effective(res.value).0, Effective(res.value).1)
  {
    hide Rank, EvaluateConditions, KeyAtMost;
    var matched: seq<Policy> := [];
    for i := 0 to |policies|
      invariant forall p :: p in matched <==> p in policies[..i] && Matches(parse, p, q)
      invariant forall k :: 0 <= k < i ==> !Errs(parse, policies[k], q)
    {
      assert policies[i] in policies;
      match Applies(parse, policies[i], q) {
        case Is(b) =>
          if b { matched := matched + [policies[i]]; }
          assert policies[..i + 1] == policies[..i] + [policies[i]];
        case Fails => return Some(Decided(Block, None));
        case Crashes => return Some(Raised);
      }
    }
    assert policies[..|policies|] == policies;
    forall p | p in rows && Rank(p, q) == r ensures !Errs(parse, p, q) { assert p in policies; }
    if |matched| == 0 { return None; }
    assert matched[0] in policies;
    var priority := MaxPriority(matched);
    var top := [];
    for i := 0 to |matched|
      invariant forall p :: p in top <==> p in matched[..i] && p.priority == priority
    {
      if matched[i].priority == priority { top := top + [matched[i]]; }
      assert matched[..i + 1] == matched[..i] + [matched[i]];
    }
    assert matched[..|matched|] == matched;
    assert forall p :: p in top <==> Top(parse, rows, q, r, p);
    if exists i :: 0 <= i < |top| && top[i].action != top[0].action {
      assert top[0] in top;
      var i :| 0 <= i < |top| && top[i].action != top[0].action;
      assert top[i] in top;
      return Some(Decided(Block, None));
    }
    forall p | p in top ensures p.action == top[0].action {}
    var chosen := FirstByKey(top);
    assert Top(parse, rows, q, r, chosen);
    return Some(Decided(chosen.action, Some(chosen.key)));
  }

  /** `evaluate`: the first decisive rank decides; the specification does not see the order of rows. */
  method Evaluate(parse: Parser, policies: seq<Policy>, q: Query) returns (res: Result)
    ensures Says(parse, Rows(policies), q, Effective(res).0, Effective(res).1)
  {
    hide Rank, RankSays, Decisive;
    ghost var rows := Rows(policies);
    for r := 1 to 4
      invariant forall k :: 1 <= k < r ==> !Decisive(parse, rows, q, k)
    {
      var rank := RankList(policies, q, r);
      var decided := ResolveRank(parse, rank, q, rows, r);
      if decided.Some? { return decided.value; }
    }
    return Decided(Block, None);
  }

  // ---------------------------------------------------------------- theorems

  lemma RankSaysOne(parse: Parser, rows: set<Policy>, q: Query, r: nat,
                    a: PolicyAction, k: Option<string>, b: PolicyAction, l: Option<string>)
    requires RankSays(parse, rows, q, r, a, k) && RankSays(parse, rows, q, r, b, l)
    ensures a == b && k == l
  {
    hide Top, Faulty, KeyAtMost;
    if k.Some? && l.Some? { KeysTotal(k.value, l.value); }
  }

  /** The specification determines the decision and the matched key, so any two evaluations over the
      same rows agree, whatever the order in which the table returned them. */
  lemma OrderIrrelevant(parse: Parser, ps: seq<Policy>, qs: seq<Policy>, q: Query, x: Result, y: Result)
    requires forall p :: p in ps <==> p in qs
    requires Says(parse, Rows(ps), q, Effective(x).0, Effective(x).1)
    requires Says(parse, Rows(qs), q, Effective(y).0, Effective(y).1)
    ensures Effective(x) == Effective(y)
  {
    hide RankSays, Decisive;
    assert Rows(ps) == Rows(qs);
    var a, k, b, l := Effective(x).0, Effective(x).1, Effective(y).0, Effective(y).1;
    if Decisive(parse, Rows(ps), q, 1) { RankSaysOne(parse, Rows(ps), q, 1, a, k, b, l); }
    else if Decisive(parse, Rows(ps), q, 2) { RankSaysOne(parse, Rows(ps), q, 2, a, k, b, l); }
    else if Decisive(parse, Rows(ps), q, 3) { RankSaysOne(parse, Rows(ps), q, 3, a, k, b, l); }
  }

  /** ALLOW has one cause: the first rank that applies has no faulty condition, and all its
      top-priority matches say ALLOW. */
  lemma AllowOnlyIf(parse: Parser, rows: set<Policy>, q: Query, key: Option<string>)
    requires Says(parse, rows, q, Allow, key)
    ensures exists r :: 1 <= r <= 3 && Unanimous(parse, rows, q, r)
  {
    hide Rank, Errs, Matches, KeyAtMost;
    var r := if Decisive(parse, rows, q, 1) then 1 else if Decisive(parse, rows, q, 2) then 2 else 3;
    assert RankSays(parse, rows, q, r, Allow, key);
    assert Unanimous(parse, rows, q, r);
  }

  ghost predicate Unanimous(parse: Parser, rows: set<Policy>, q: Query, r: nat) {
    && Decisive(parse, rows, q, r) && !Faulty(parse, rows, q, r)
    && (forall n :: 1 <= n < r ==> !Decisive(parse, rows, q, n))
    && (exists p :: Top(parse, rows, q, r, p))
    && (forall p :: Top(parse, rows, q, r, p) ==> p.action.Allow?)
  }

  /** Rows that rank behind a decisive one change nothing. */
  lemma OthersIrrelevant(parse: Parser, rows: set<Policy>, more: set<Policy>, q: Query, r: nat,
                         action: PolicyAction, key: Option<string>)
    requires 1 <= r <= 3 && Decisive(parse, rows, q, r)
    requires forall p :: 1 <= Rank(p, q) <= r ==> (p in rows <==> p in more)
    ensures Says(parse, rows, q, action, key) <==> Says(parse, more, q, action, key)
  {
    hide Rank, Errs, Matches, KeyAtMost;
    SameRank(parse, rows, more, q, 1, action, key);
    if r >= 2 { SameRank(parse, rows, more, q, 2, action, key); }
    if r >= 3 { SameRank(parse, rows, more, q, 3, action, key); }
    hide RankSays, Decisive;
  }

  lemma SameRank(parse: Parser, rows: set<Policy>, more: set<Policy>, q: Query, r: nat,
                 action: PolicyAction, key: Option<string>)
    requires forall p :: Rank(p, q) == r ==> (p in rows <==> p in more)
    ensures Decisive(parse, rows, q, r) <==> Decisive(parse, more, q, r)
    ensures RankSays(parse, rows, q, r, action, key) <==> RankSays(parse, more, q, r, action, key)
  {
    hide Rank, Errs, Matches, KeyAtMost;
    forall p ensures Top(parse, rows, q, r, p) <==> Top(parse, more, q, r, p) {}
    hide Top;
  }

  // ---------------------------------------------------------------- precedence, by the columns

  /** A row about the agent itself whose condition matches or errs settles the query before any row that
      names no agent. */
  lemma OwnRowsFirst(parse: Parser, rows: set<Policy>, more: set<Policy>, q: Query, p: Policy,
                     action: PolicyAction, key: Option<string>)
    requires p in rows && p.enabled && p.tool == q.tool && p.agentId == Some(q.agentId)
    requires Errs(parse, p, q) || Matches(parse, p, q)
    requires forall o: Policy :: o.agentId.Some? ==> (o in rows <==> o in more)
    ensures Says(parse, rows, q, action, key) <==> Says(parse, more, q, action, key)
  {
    hide Errs, Matches, KeyAtMost, RankSays, Top;
    assert Rank(p, q) == 1;
    OthersIrrelevant(parse, rows, more, q, 1, action, key);
  }

  /** A row about the agent's type settles it before any row that names neither agent nor type. */
  lemma TypeRowsNext(parse: Parser, rows: set<Policy>, more: set<Policy>, q: Query, p: Policy,
                     action: PolicyAction, key: Option<string>)
    requires p in rows && p.enabled && p.tool == q.tool && p.agentId.None? && p.agentType == Some(q.agentType)
    requires Errs(parse, p, q) || Matches(parse, p, q)
    requires forall o: Policy :: o.agentId.Some? || o.agentType.Some? ==> (o in rows <==> o in more)
    ensures Says(parse, rows, q, action, key) <==> Says(parse, more, q, action, key)
  {
    hide Errs, Matches, KeyAtMost, RankSays, Top;
    assert Rank(p, q) == 2;
    OthersIrrelevant(parse, rows, more, q, 2, action, key);
  }

  /** The row names this tool, and no other agent and no other type of agent. */
  predicate Concerns(p: Policy, q: Query) {
    && p.enabled && p.tool == q.tool
    && (p.agentId == Some(q.agentId) || (p.agentId.None? && (p.agentType.None? || p.agentType == Some(q.agentType))))
  }

  /** Disabled rows and rows about another tool, agent or type do not count at all. */
  lemma StrangersIrrelevant(parse: Parser, rows: set<Policy>, more: set<Policy>, q: Query,
                            action: PolicyAction, key: Option<string>)
    requires forall p :: Concerns(p, q) ==> (p in rows <==> p in more)
    ensures Says(parse, rows, q, action, key) <==> Says(parse, more, q, action, key)
  {
    hide Errs, Matches, KeyAtMost, RankSays, Decisive, Top;
    forall p ensures Concerns(p, q) <==> 1 <= Rank(p, q) <= 3 {}
    hide Rank, Concerns;
    SameRank(parse, rows, more, q, 1, action, key);
    SameRank(parse, rows, more, q, 2, action, key);
    SameRank(parse, rows, more, q, 3, action, key);
  }

  predicate Speaks(parse: Parser, p: Policy, q: Query) {
    Errs(parse, p, q) || Matches(parse, p, q)
  }

  /** `o` names the agent or the type where `p` does not. */
  predicate Narrower(o: Policy, p: Policy) {
    || (o.agentId.Some? && p.agentId.None?)
    || (o.agentId.None? && p.agentId.None? && o.agentType.Some? && p.agentType.None?)
  }

  predicate Alike(o: Policy, p: Policy) {
    !Narrower(o, p) && !Narrower(p, o)
  }

  /** `p` speaks, and no narrower row about this query does. */
  ghost predicate Leads(parse: Parser, rows: set<Policy>, q: Query, p: Policy) {
    && p in rows && Concerns(p, q) && Speaks(parse, p, q)
    && forall o :: o in rows && Concerns(o, q) && Narrower(o, p) ==> !Speaks(parse, o, q)
  }

  /** The rank of the leading row is the one that decides, and holds the rows like it. */
  lemma LeadersRank(parse: Parser, rows: set<Policy>, q: Query, p: Policy)
    requires Leads(parse, rows, q, p)
    ensures var r := Rank(p, q);
      && 1 <= r <= 3 && Decisive(parse, rows, q, r) && (forall n :: 1 <= n < r ==> !Decisive(parse, rows, q, n))
      && forall o :: o in rows ==> (Rank(o, q) == r <==> Concerns(o, q) && Alike(o, p))
  {
    hide Errs, Matches;
    var r := Rank(p, q);
    forall n | 1 <= n < r ensures !Decisive(parse, rows, q, n) {
      forall o | o in rows && Rank(o, q) == n ensures !Speaks(parse, o, q) { assert Narrower(o, p); }
    }
  }

  /** A condition that errs blocks, whatever else matches there and with what priority. */
  lemma ErrorBlocks(parse: Parser, rows: set<Policy>, q: Query, p: Policy, action: PolicyAction, key: Option<string>)
    requires Leads(parse, rows, q, p) && Errs(parse, p, q)
    ensures Says(parse, rows, q, action, key) <==> action.Block? && key.None?
  {
    LeadersRank(parse, rows, q, p);
    hide Rank, Errs, Matches, KeyAtMost, Leads, Decisive;
    assert Faulty(parse, rows, q, Rank(p, q));
  }

  /** No row like `p` errs, and none that matches has a higher priority. */
  ghost predicate Wins(parse: Parser, rows: set<Policy>, q: Query, p: Policy) {
    && Leads(parse, rows, q, p)
    && forall o :: o in rows && Concerns(o, q) && Alike(o, p) ==>
         !Errs(parse, o, q) && (Matches(parse, o, q) ==> o.priority <= p.priority)
  }

  lemma WinnersTop(parse: Parser, rows: set<Policy>, q: Query, p: Policy)
    requires Wins(parse, rows, q, p)
    ensures var r := Rank(p, q);
      && !Faulty(parse, rows, q, r)
      && forall o :: Top(parse, rows, q, r, o) <==>
           o in rows && Concerns(o, q) && Alike(o, p) && Matches(parse, o, q) && o.priority == p.priority
  {
    LeadersRank(parse, rows, q, p);
    hide Rank, Concerns, Alike, Narrower, Decisive;
  }

  /** Two rows of the highest priority that disagree block. */
  lemma ConflictBlocks(parse: Parser, rows: set<Policy>, q: Query, p: Policy, o: Policy,
                       action: PolicyAction, key: Option<string>)
    requires Wins(parse, rows, q, p) && o in rows && Concerns(o, q) && Alike(o, p) && Matches(parse, o, q)
    requires o.priority == p.priority && o.action != p.action
    ensures Says(parse, rows, q, action, key) <==> action.Block? && key.None?
  {
    LeadersRank(parse, rows, q, p);
    WinnersTop(parse, rows, q, p);
    hide Rank, Errs, KeyAtMost, Leads, Wins, Decisive, Top, Concerns, Faulty;
    assert Top(parse, rows, q, Rank(p, q), p) && Top(parse, rows, q, Rank(p, q), o);
  }

  /** Otherwise they agree, and the least key names the decision. */
  lemma WinnerDecides(parse: Parser, rows: set<Policy>, q: Query, p: Policy, action: PolicyAction, key: Option<string>)
    requires Wins(parse, rows, q, p)
    requires forall o :: o in rows && Concerns(o, q) && Alike(o, p) && Matches(parse, o, q) ==>
      o.priority == p.priority ==> o.action == p.action && KeyAtMost(p.key, o.key)
    ensures Says(parse, rows, q, action, key) <==> action == p.action && key == Some(p.key)
  {
    LeadersRank(parse, rows, q, p);
    WinnersTop(parse, rows, q, p);
    hide Rank, Leads, Decisive, Concerns, Faulty;
    assert Top(parse, rows, q, Rank(p, q), p);
    hide Top, KeyAtMost;
    forall o | Top(parse, rows, q, Rank(p, q), o) && KeyAtMost(o.key, p.key) ensures o.key == p.key {
      KeysTotal(o.key, p.key);
    }
  }

  /** If nothing that concerns the query matches or errs, the call is blocked. */
  lemma NothingApplies(parse: Parser, rows: set<Policy>, q: Query, action: PolicyAction, key: Option<string>)
    requires forall o :: o in rows && Concerns(o, q) ==> Applies(parse, o, q) == Is(false)
    ensures Says(parse, rows, q, action, key) <==> action.Block? && key.None?
  {
    hide Applies, KeyAtMost;
    forall o ensures Concerns(o, q) <==> 1 <= Rank(o, q) <= 3 {}
    hide Rank, Concerns, RankSays;
  }
}
