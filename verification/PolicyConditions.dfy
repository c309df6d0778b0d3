/** The condition evaluator: a JSON tree of all / any over field comparisons, evaluated left to right
    with short circuit, where anything malformed is an exception. */
module PolicyConditions {
  import opened Base

  /** Values as `json` yields them.  A number is its exact decimal value. */
  datatype Json =
    | Null
    | Bool(b: bool)
    | Num(n: real)
    | Str(s: string)
    | List(items: seq<Json>)
    | Dict(fields: map<string, Json>)

  /** `Decimal(str(s))` on strings: partial, and undefined as well where the result is not finite. */
  type Parser = string -> Option<real>

  /** `Fails` is PolicyConditionError; `Crashes` is any other exception. */
  datatype Outcome = Is(value: bool) | Fails | Crashes

  // ---------------------------------------------------------------- operators

  /** `_as_decimal`. */
  function AsDecimal(parse: Parser, v: Json): Option<real> {
    match v
    case Num(n) => Some(n)
    case Str(s) => parse(s)
    case _ => None
  }

  function Numeric(v: Json): Option<real> {
    match v
    case Num(n) => Some(n)
    case Bool(b) => Some(if b then 1.0 else 0.0)
    case _ => None
  }

  /** Python's `==`, in which True equals 1. */
  predicate PyEq(a: Json, b: Json)
    decreases a
  {
    match a
    case Null => b.Null?
    case Bool(_) => Numeric(a) == Numeric(b)
    case Num(_) => Numeric(a) == Numeric(b)
    case Str(s) => b == Str(s)
    case List(xs) =>
      b.List? && |xs| == |b.items| && forall i :: 0 <= i < |xs| ==> PyEq(xs[i], b.items[i])
    case Dict(m) =>
      b.Dict? && m.Keys == b.fields.Keys && forall k :: k in m ==> PyEq(m[k], b.fields[k])
  }

  predicate SameType(a: Json, b: Json) {
    match a
    case Null => b.Null?
    case Bool(_) => b.Bool?
    case Num(_) => b.Num?
    case Str(_) => b.Str?
    case List(_) => b.List?
    case Dict(_) => b.Dict?
  }

  /** `_eq`. */
  predicate Eq(parse: Parser, actual: Json, expected: Json) {
    var m, n := AsDecimal(parse, actual), AsDecimal(parse, expected);
    if m.None? then n.None? && SameType(actual, expected) && PyEq(actual, expected)
    else n.Some? && m.value == n.value
  }

  function Compare(parse: Parser, op: string, actual: Json, expected: Json): Outcome {
    var m, n := AsDecimal(parse, actual), AsDecimal(parse, expected);
    if m.None? || n.None? then Fails
    else if op == "lt" then Is(m.value < n.value)
    else if op == "lte" then Is(m.value <= n.value)
    else if op == "gt" then Is(m.value > n.value)
    else Is(m.value >= n.value)
  }

  function Apply(parse: Parser, op: string, actual: Json, expected: Json): Outcome {
    if op == "eq" then Is(Eq(parse, actual, expected))
    else if op == "neq" then Is(!Eq(parse, actual, expected))
    else if op in {"lt", "lte", "gt", "gte"} then Compare(parse, op, actual, expected)
    else if op == "in" then
      if expected.List? then Is(exists i :: 0 <= i < |expected.items| && PyEq(actual, expected.items[i])) else Fails
    else Fails
  }

  // ---------------------------------------------------------------- fields

  /** `s.split(".")`. */
  function Split(s: string): (parts: seq<string>)
    ensures |parts| > 0
  {
    if |s| == 0 then [""]
    else
      var rest := Split(s[1..]);
      if s[0] == '.' then [""] + rest else [[s[0]] + rest[0]] + rest[1..]
  }

  /** The value at the end of a path of keys, if every key is there. */
  function Lookup(v: Json, path: seq<string>): Option<Json> {
    if |path| == 0 then Some(v)
    else if v.Dict? && path[0] in v.fields then Lookup(v.fields[path[0]], path[1..])
    else None
  }

  /** A path is followed key by key. */
  lemma {:induction false} LookupComposes(v: Json, a: seq<string>, b: seq<string>)
    ensures Lookup(v, a + b) == match Lookup(v, a) case None => None case Some(w) => Lookup(w, b)
    ensures forall k: string ::
      Lookup(v, [k]) == if v.Dict? && k in v.fields then Some(v.fields[k]) else None
    ensures Lookup(v, []) == Some(v)
  {
    if |a| == 0 {
      assert a + b == b;
    } else {
      assert (a + b)[1..] == a[1..] + b;
      if v.Dict? && a[0] in v.fields { LookupComposes(v.fields[a[0]], a[1..], b); }
    }
  }

  /** What `_resolve_field` yields; None is its exception. */
  function FieldValue(field: Json, context: Json): Option<Json> {
    if !field.Str? || field.s == "" then None
    else
      var v := Lookup(context, Split(field.s));
      if v == Some(Null) then None else v
  }

  /** `_resolve_field`: the loop over the parts of the name. */
  method ResolveField(field: Json, context: Json) returns (r: Option<Json>)
    ensures r == FieldValue(field, context)
  {
    if !field.Str? || field.s == "" { return None; }
    var parts, value := Split(field.s), context;
    for i := 0 to |parts|
      invariant Lookup(context, parts) == Lookup(value, parts[i..])
    {
      if !value.Dict? || parts[i] !in value.fields { return None; }
      value := value.fields[parts[i]];
    }
    if value.Null? { return None; }
    return Some(value);
  }

  // ---------------------------------------------------------------- evaluation

  function EvaluateLeaf(parse: Parser, leaf: map<string, Json>, context: Json): Outcome {
    if leaf.Keys != {"field", "operator", "value"} then Fails
    else
      match leaf["operator"]
      case List(_) => Crashes // unhashable
      case Dict(_) => Crashes
      case Str(op) =>
        if op !in {"eq", "neq", "lt", "lte", "gt", "gte", "in"} then Fails
        else
          var actual := FieldValue(leaf["field"], context);
          if actual.None? then Fails else Apply(parse, op, actual.value, leaf["value"])
      case _ => Fails
  }

  /** A node that is one combinator over a non-empty list of clauses. */
  predicate Combines(node: Json, key: string) {
    node.Dict? && key in node.fields && |node.fields| == 1 && node.fields[key].List? && |node.fields[key].items| > 0
  }

  function Evaluate(parse: Parser, node: Json, context: Json): Outcome
    decreases node, 0
  {
    if !node.Dict? then Fails
    else if "all" in node.fields || "any" in node.fields then
      if Combines(node, "all") then EvaluateAll(parse, node, node.fields["all"].items, 0, context)
      else if Combines(node, "any") then EvaluateAny(parse, node, node.fields["any"].items, 0, context)
      else Fails
    else EvaluateLeaf(parse, node.fields, context)
  }

  /** `all(...)` over the clauses from the i-th on. */
  function EvaluateAll(parse: Parser, node: Json, clauses: seq<Json>, i: nat, context: Json): Outcome
    requires i <= |clauses| && forall k :: 0 <= k < |clauses| ==> clauses[k] < node
    decreases node, 0, |clauses| - i
  {
    if i == |clauses| then Is(true)
    else
      var first := Evaluate(parse, clauses[i], context);
      if first == Is(true) then EvaluateAll(parse, node, clauses, i + 1, context) else first
  }

  function EvaluateAny(parse: Parser, node: Json, clauses: seq<Json>, i: nat, context: Json): Outcome
    requires i <= |clauses| && forall k :: 0 <= k < |clauses| ==> clauses[k] < node
    decreases node, 0, |clauses| - i
  {
    if i == |clauses| then Is(false)
    else
      var first := Evaluate(parse, clauses[i], context);
      if first == Is(false) then EvaluateAny(parse, node, clauses, i + 1, context) else first
  }

  /** `evaluate_conditions`. */
  function EvaluateConditions(parse: Parser, conditions: Json, context: Json): Outcome {
    if conditions == Null || conditions == Dict(map[]) then Is(true) else Evaluate(parse, conditions, context)
  }

  // ---------------------------------------------------------------- when there is an answer

  /** No condition at all holds; anything else that is no object is an error. */
  lemma NoConditionHolds(parse: Parser, conditions: Json, context: Json)
    ensures var r := EvaluateConditions(parse, conditions, context);
      && (conditions.Null? || (conditions.Dict? && |conditions.fields| == 0) ==> r == Is(true))
      && (!conditions.Null? && !conditions.Dict? ==> r == Fails)
  {
  }

  /** A comparison that the operator is defined on. */
  predicate Comparable(parse: Parser, op: string, actual: Json, expected: Json) {
    || op == "eq" || op == "neq" || (op == "in" && expected.List?)
    || (op in {"lt", "lte", "gt", "gte"} && AsDecimal(parse, actual).Some? && AsDecimal(parse, expected).Some?)
  }

  /** A leaf answers if and only if it is complete, its operator is known, the field is there and not null,
      and the operator is defined on what is compared; then the answer is the operator's. */
  lemma LeafExactly(parse: Parser, leaf: map<string, Json>, context: Json)
    requires "all" !in leaf && "any" !in leaf
    ensures var r := Evaluate(parse, Dict(leaf), context);
      && (r.Is? <==>
            && leaf.Keys == {"field", "operator", "value"} && leaf["operator"].Str? && leaf["field"].Str?
            && leaf["field"].s != "" && var v := Lookup(context, Split(leaf["field"].s));
               v.Some? && !v.value.Null? && Comparable(parse, leaf["operator"].s, v.value, leaf["value"]))
      && (r.Is? ==>
            r == Apply(parse, leaf["operator"].s, Lookup(context, Split(leaf["field"].s)).value, leaf["value"]))
      && (r.Crashes? <==>
            leaf.Keys == {"field", "operator", "value"} && (leaf["operator"].List? || leaf["operator"].Dict?))
  {
    hide PyEq, Split, Lookup;
  }

  /** A combinator beside another key, or without a non-empty list of clauses, is an error. */
  lemma CombinatorExactly(parse: Parser, node: Json, key: string, context: Json)
    requires node.Dict? && (key == "all" || key == "any") && key in node.fields
    requires |node.fields| != 1 || !node.fields[key].List? || |node.fields[key].items| == 0
    ensures Evaluate(parse, node, context) == Fails
  {
    if |node.fields| == 1 {
      var rest := node.fields.Keys - {key};
      assert node.fields.Keys == rest + {key} && |rest| == 0;
      assert "all" != "any" by { assert "all"[1] != "any"[1]; }
    }
  }

  // ---------------------------------------------------------------- the declarative reading

  /** Strong Kleene truth values. */
  datatype Truth = True | False | Unknown

  function Read(o: Outcome): Truth {
    match o
    case Is(b) => if b then True else False
    case _ => Unknown
  }

  ghost function Meaning(parse: Parser, node: Json, context: Json): Truth
    decreases node
  {
    if !node.Dict? then Unknown
    else if "all" in node.fields || "any" in node.fields then
      if Combines(node, "all") then
        var cs := node.fields["all"].items;
        if exists i :: 0 <= i < |cs| && Meaning(parse, cs[i], context).False? then False
        else if forall i :: 0 <= i < |cs| ==> Meaning(parse, cs[i], context).True? then True
        else Unknown
      else if Combines(node, "any") then
        var cs := node.fields["any"].items;
        if exists i :: 0 <= i < |cs| && Meaning(parse, cs[i], context).True? then True
        else if forall i :: 0 <= i < |cs| ==> Meaning(parse, cs[i], context).False? then False
        else Unknown
      else Unknown
    else Read(EvaluateLeaf(parse, node.fields, context))
  }

  lemma {:induction false} AllMeans(parse: Parser, node: Json, clauses: seq<Json>, i: nat, context: Json)
    requires i <= |clauses| && forall k :: 0 <= k < |clauses| ==> clauses[k] < node
    ensures var r := EvaluateAll(parse, node, clauses, i, context);
      && (r == Is(true) ==> forall k :: i <= k < |clauses| ==> Meaning(parse, clauses[k], context).True?)
      && (r == Is(false) ==> exists k :: i <= k < |clauses| && Meaning(parse, clauses[k], context).False?)
    decreases node, 0, |clauses| - i
  {
    hide Evaluate, Meaning;
    if i < |clauses| {
      ShortCircuitRefines(parse, clauses[i], context);
      AllMeans(parse, node, clauses, i + 1, context);
    }
  }

  lemma {:induction false} AnyMeans(parse: Parser, node: Json, clauses: seq<Json>, i: nat, context: Json)
    requires i <= |clauses| && forall k :: 0 <= k < |clauses| ==> clauses[k] < node
    ensures var r := EvaluateAny(parse, node, clauses, i, context);
      && (r == Is(true) ==> exists k :: i <= k < |clauses| && Meaning(parse, clauses[k], context).True?)
      && (r == Is(false) ==> forall k :: i <= k < |clauses| ==> Meaning(parse, clauses[k], context).False?)
    decreases node, 0, |clauses| - i
  {
    hide Evaluate, Meaning;
    if i < |clauses| {
      ShortCircuitRefines(parse, clauses[i], context);
      AnyMeans(parse, node, clauses, i + 1, context);
    }
  }

  /** Whenever the evaluator answers, the three-valued reading gives the same answer. */
  lemma {:induction false} ShortCircuitRefines(parse: Parser, node: Json, context: Json)
    ensures var r := Evaluate(parse, node, context); r.Is? ==> Meaning(parse, node, context) == Read(r)
    decreases node, 0
  {
    if Combines(node, "all") {
      AllMeans(parse, node, node.fields["all"].items, 0, context);
    } else if Combines(node, "any") {
      AnyMeans(parse, node, node.fields["any"].items, 0, context);
    }
  }

  /** `a` and `b` differ at most in the order (and repetition) of clauses, at any depth. */
  ghost predicate Rearranged(a: Json, b: Json)
    decreases a, 2
  {
    a == b
    || (Combines(a, "all") && Combines(b, "all") && SameClauses(a, b, "all"))
    || (Combines(a, "any") && Combines(b, "any") && SameClauses(a, b, "any"))
  }

  ghost predicate SameClauses(a: Json, b: Json, key: string)
    requires Combines(a, key) && Combines(b, key)
    decreases a, 1
  {
    var xs, ys := a.fields[key].items, b.fields[key].items;
    && (forall i :: 0 <= i < |xs| ==> HasMate(xs[i], ys))
    && (forall j :: 0 <= j < |ys| ==> IsMate(a, key, ys[j]))
  }

  ghost predicate HasMate(x: Json, ys: seq<Json>)
    decreases x, 3
  {
    exists j :: 0 <= j < |ys| && Rearranged(x, ys[j])
  }

  ghost predicate IsMate(a: Json, key: string, y: Json)
    requires Combines(a, key)
    decreases a, 0
  {
    var xs := a.fields[key].items;
    exists i :: 0 <= i < |xs| && Rearranged(xs[i], y)
  }

  ghost predicate Occurs(parse: Parser, clauses: seq<Json>, context: Json, t: Truth) {
    exists i :: 0 <= i < |clauses| && Meaning(parse, clauses[i], context) == t
  }

  lemma AllByOccurrence(parse: Parser, node: Json, context: Json)
    requires Combines(node, "all")
    ensures var cs := node.fields["all"].items;
      Meaning(parse, node, context) ==
        if Occurs(parse, cs, context, False) then False
        else if Occurs(parse, cs, context, Unknown) then Unknown else True
  {
    var cs := node.fields["all"].items;
  }

  lemma AnyByOccurrence(parse: Parser, node: Json, context: Json)
    requires Combines(node, "any")
    ensures var cs := node.fields["any"].items;
      Meaning(parse, node, context) ==
        if Occurs(parse, cs, context, True) then True
        else if Occurs(parse, cs, context, Unknown) then Unknown else False
  {
    OnlyKey(node, "any");
    assert "all" != "any" by { assert "all"[1] != "any"[1]; }
  }

  lemma OnlyKey(node: Json, key: string)
    requires Combines(node, key)
    ensures node.fields.Keys == {key}
  {
    var rest := node.fields.Keys - {key};
    assert node.fields.Keys == rest + {key} && |rest| == 0;
  }

  lemma {:induction false} RearrangedMeans(parse: Parser, a: Json, b: Json, context: Json)
    requires Rearranged(a, b)
    ensures Meaning(parse, a, context) == Meaning(parse, b, context)
    decreases a, 2
  {
    if a != b {
      if Combines(a, "all") && Combines(b, "all") && SameClauses(a, b, "all") {
        ClausesMean(parse, a, b, "all", context);
        AllByOccurrence(parse, a, context);
        AllByOccurrence(parse, b, context);
      } else {
        ClausesMean(parse, a, b, "any", context);
        AnyByOccurrence(parse, a, context);
        AnyByOccurrence(parse, b, context);
      }
    }
  }

  /** The clauses of both sides have the same meanings. */
  lemma {:induction false} ClausesMean(parse: Parser, a: Json, b: Json, key: string, context: Json)
    requires Combines(a, key) && Combines(b, key) && SameClauses(a, b, key)
    ensures forall t :: Occurs(parse, a.fields[key].items, context, t) <==>
      Occurs(parse, b.fields[key].items, context, t)
    decreases a, 1
  {
    hide Meaning, Rearranged, HasMate, IsMate;
    var xs, ys := a.fields[key].items, b.fields[key].items;
    forall i | 0 <= i < |xs| ensures Occurs(parse, ys, context, Meaning(parse, xs[i], context)) {
      MateMeans(parse, xs[i], ys, context);
    }
    forall j | 0 <= j < |ys| ensures Occurs(parse, xs, context, Meaning(parse, ys[j], context)) {
      MatedMeans(parse, a, key, ys[j], context);
    }
  }

  lemma {:induction false} MateMeans(parse: Parser, x: Json, ys: seq<Json>, context: Json)
    requires HasMate(x, ys)
    ensures Occurs(parse, ys, context, Meaning(parse, x, context))
    decreases x, 3
  {
    hide Meaning, Rearranged;
    var j :| 0 <= j < |ys| && Rearranged(x, ys[j]);
    RearrangedMeans(parse, x, ys[j], context);
  }

  lemma {:induction false} MatedMeans(parse: Parser, a: Json, key: string, y: Json, context: Json)
    requires Combines(a, key) && IsMate(a, key, y)
    ensures Occurs(parse, a.fields[key].items, context, Meaning(parse, y, context))
    decreases a, 0
  {
    hide Meaning, Rearranged;
    var xs := a.fields[key].items;
    var i :| 0 <= i < |xs| && Rearranged(xs[i], y);
    RearrangedMeans(parse, xs[i], y, context);
  }

  /** Reordering clauses anywhere can swap an answer with an error, never True with False. */
  lemma RearrangingNeverFlips(parse: Parser, a: Json, b: Json, context: Json)
    requires Rearranged(a, b)
    requires Evaluate(parse, a, context).Is? && Evaluate(parse, b, context).Is?
    ensures Evaluate(parse, a, context) == Evaluate(parse, b, context)
  {
    ShortCircuitRefines(parse, a, context);
    ShortCircuitRefines(parse, b, context);
    RearrangedMeans(parse, a, b, context);
  }

  lemma ClausesRearrange(a: Json, b: Json, key: string)
    requires (key == "all" || key == "any") && Combines(a, key) && Combines(b, key) && SameClauses(a, b, key)
    ensures Rearranged(a, b)
  {
  }

  lemma Mates(a: Json, key: string, ys: seq<Json>, x: Json)
    requires Combines(a, key)
    ensures x in ys ==> HasMate(x, ys)
    ensures x in a.fields[key].items ==> IsMate(a, key, x)
  {
    assert Rearranged(x, x);
  }

  /** A permutation of the clauses of one node is a rearrangement. */
  lemma PermutedIsRearranged(a: Json, b: Json, key: string)
    requires (key == "all" || key == "any") && Combines(a, key) && Combines(b, key)
    requires multiset(a.fields[key].items) == multiset(b.fields[key].items)
    ensures Rearranged(a, b)
  {
    hide Rearranged, HasMate, IsMate;
    var xs, ys := a.fields[key].items, b.fields[key].items;
    forall x ensures x in xs <==> x in ys { assert x in multiset(xs) <==> x in multiset(ys); }
    forall i | 0 <= i < |xs| ensures HasMate(xs[i], ys) { Mates(a, key, ys, xs[i]); }
    forall j | 0 <= j < |ys| ensures IsMate(a, key, ys[j]) { Mates(a, key, ys, ys[j]); }
    ClausesRearrange(a, b, key);
  }

  /** The first clause that is not `b` is clause `k`, and it evaluates to !b. */
  ghost predicate Decides(parse: Parser, clauses: seq<Json>, i: nat, k: int, b: bool, context: Json) {
    && i <= k < |clauses| && Evaluate(parse, clauses[k], context) == Is(!b)
    && forall j :: i <= j < k ==> Evaluate(parse, clauses[j], context) == Is(b)
  }

  lemma DecidesLater(parse: Parser, clauses: seq<Json>, i: nat, next: nat, b: bool, context: Json)
    requires i < |clauses| && next == i + 1
    ensures (exists k :: Decides(parse, clauses, i, k, b, context)) <==>
      (Evaluate(parse, clauses[i], context) == Is(!b) ||
       (Evaluate(parse, clauses[i], context) == Is(b) && exists k :: Decides(parse, clauses, next, k, b, context)))
  {
    hide Evaluate;
    if Evaluate(parse, clauses[i], context) == Is(!b) {
      assert Decides(parse, clauses, i, i, b, context);
    } else if k :| Decides(parse, clauses, i, k, b, context) {
      assert Decides(parse, clauses, next, k, b, context);
    }
    if Evaluate(parse, clauses[i], context) == Is(b) {
      if k :| Decides(parse, clauses, next, k, b, context) {
        assert Decides(parse, clauses, i, k, b, context);
      }
    }
  }

  /** Exactly when `all` answers: False if the first clause that is not True is False, True if there is
      no such clause; so a True `all` stays True in every order. */
  lemma {:induction false} AllExactly(parse: Parser, node: Json, clauses: seq<Json>, i: nat, context: Json)
    requires i <= |clauses| && forall k :: 0 <= k < |clauses| ==> clauses[k] < node
    ensures var r := EvaluateAll(parse, node, clauses, i, context);
      && (r == Is(true) <==> forall k :: i <= k < |clauses| ==> Evaluate(parse, clauses[k], context) == Is(true))
      && (r == Is(false) <==> exists k :: Decides(parse, clauses, i, k, true, context))
    decreases |clauses| - i
  {
    hide Evaluate;
    if i < |clauses| {
      AllExactly(parse, node, clauses, i + 1, context);
      DecidesLater(parse, clauses, i, i + 1, true, context);
    }
  }

  lemma {:induction false} AnyExactly(parse: Parser, node: Json, clauses: seq<Json>, i: nat, context: Json)
    requires i <= |clauses| && forall k :: 0 <= k < |clauses| ==> clauses[k] < node
    ensures var r := EvaluateAny(parse, node, clauses, i, context);
      && (r == Is(false) <==> forall k :: i <= k < |clauses| ==> Evaluate(parse, clauses[k], context) == Is(false))
      && (r == Is(true) <==> exists k :: Decides(parse, clauses, i, k, false, context))
    decreases |clauses| - i
  {
    hide Evaluate;
    if i < |clauses| {
      AnyExactly(parse, node, clauses, i + 1, context);
      DecidesLater(parse, clauses, i, i + 1, false, context);
    }
  }

  /** And the swap does happen: `any` of a true clause and a malformed one answers in one order only. */
  lemma OrderMatters(parse: Parser, c: Json, context: Json)
    requires Evaluate(parse, c, context) == Is(true)
    ensures Evaluate(parse, Dict(map["any" := List([c, Null])]), context) == Is(true)
    ensures Evaluate(parse, Dict(map["any" := List([Null, c])]), context) == Fails
  {
    assert "all" != "any" by { assert "all"[1] != "any"[1]; }
    var a, b := Dict(map["any" := List([c, Null])]), Dict(map["any" := List([Null, c])]);
    var cs, ds := a.fields["any"].items, b.fields["any"].items;
    AnyExactly(parse, a, cs, 0, context);
    assert Decides(parse, cs, 0, 0, false, context);
    assert Evaluate(parse, ds[0], context) == Fails;
  }

  // ---------------------------------------------------------------- equality is sound

  lemma {:induction false} PyEqSymmetric(a: Json, b: Json)
    ensures PyEq(a, b) ==> PyEq(b, a)
    decreases a
  {
    if a.List? && b.List? && |a.items| == |b.items| {
      forall i | 0 <= i < |a.items| ensures PyEq(a.items[i], b.items[i]) ==> PyEq(b.items[i], a.items[i]) {
        PyEqSymmetric(a.items[i], b.items[i]);
      }
    } else if a.Dict? && b.Dict? && a.fields.Keys == b.fields.Keys {
      forall k | k in a.fields ensures PyEq(a.fields[k], b.fields[k]) ==> PyEq(b.fields[k], a.fields[k]) {
        PyEqSymmetric(a.fields[k], b.fields[k]);
      }
    }
  }

  lemma {:induction false} PyEqTransitive(a: Json, b: Json, c: Json)
    requires PyEq(a, b) && PyEq(b, c)
    ensures PyEq(a, c)
    decreases a
  {
    if a.List? {
      forall i | 0 <= i < |a.items| ensures PyEq(a.items[i], c.items[i]) {
        PyEqTransitive(a.items[i], b.items[i], c.items[i]);
      }
    } else if a.Dict? {
      forall k | k in a.fields ensures PyEq(a.fields[k], c.fields[k]) {
        PyEqTransitive(a.fields[k], b.fields[k], c.fields[k]);
      }
    }
  }

  lemma {:induction false} PyEqReflexive(a: Json)
    ensures PyEq(a, a)
    decreases a
  {
    if a.List? {
      forall i | 0 <= i < |a.items| ensures PyEq(a.items[i], a.items[i]) { PyEqReflexive(a.items[i]); }
    } else if a.Dict? {
      forall k | k in a.fields ensures PyEq(a.fields[k], a.fields[k]) { PyEqReflexive(a.fields[k]); }
    }
  }

  /** The `eq` operator is an equivalence, although it compares numbers and numeric strings as
      decimals and everything else by type and value. */
  lemma EqIsEquivalence(parse: Parser, a: Json, b: Json, c: Json)
    ensures Eq(parse, a, a)
    ensures Eq(parse, a, b) ==> Eq(parse, b, a)
    ensures Eq(parse, a, b) && Eq(parse, b, c) ==> Eq(parse, a, c)
  {
    hide PyEq;
    PyEqReflexive(a);
    PyEqSymmetric(a, b);
    if PyEq(a, b) && PyEq(b, c) { PyEqTransitive(a, b, c); }
  }

  /** The operators fit together: on two numeric values exactly one of lt, eq and gt holds, and the
      others are their combinations; on anything else the four orderings fail. */
  lemma OperatorsAgree(parse: Parser, a: Json, b: Json)
    ensures var lt, lte := Apply(parse, "lt", a, b), Apply(parse, "lte", a, b);
      var gt, gte, eq := Apply(parse, "gt", a, b), Apply(parse, "gte", a, b), Eq(parse, a, b);
      && Apply(parse, "eq", a, b) == Is(eq) && Apply(parse, "neq", a, b) == Is(!eq)
      && (AsDecimal(parse, a).Some? && AsDecimal(parse, b).Some? ==>
            && lt.Is? && gt.Is? && !(lt.value && gt.value) && (eq <==> !lt.value && !gt.value)
            && lte == Is(!gt.value) && gte == Is(!lt.value))
      && (AsDecimal(parse, a).None? || AsDecimal(parse, b).None? ==> lt == lte == gt == gte == Fails)
  {
    hide PyEq;
    OperatorNames();
  }

  lemma OperatorNames()
    ensures {"lt", "lte", "gt", "gte"} !! {"eq", "neq"} && "in" !in {"lt", "lte", "gt", "gte", "eq", "neq"}
    ensures "lt" != "gt" && "lt" != "lte" && "lt" != "gte" && "lte" != "gt" && "lte" != "gte" && "gt" != "gte"
  {
    assert "lt"[0] != "eq"[0] && "neq"[0] != "eq"[0] && "lt"[0] != "neq"[0];
    assert "gt"[0] != "eq"[0] && "gt"[0] != "neq"[0] && "gt"[0] != "lt"[0];
    assert "in"[0] != "eq"[0] && "in"[0] != "neq"[0] && "in"[0] != "lt"[0] && "in"[0] != "gt"[0];
    assert "lte"[0] == 'l' && "gte"[0] == 'g';
  }

  /** True and 1, or False and 0: equal to Python, not to `eq`. */
  predicate BoolAsNumber(a: Json, b: Json) {
    ((a.Bool? && b.Num?) || (a.Num? && b.Bool?)) && Numeric(a) == Numeric(b)
  }

  /** A numeric string and another value of the same decimal: equal to `eq`, not to Python. */
  predicate TextAsNumber(parse: Parser, a: Json, b: Json) {
    && a != b && (a.Str? || b.Str?)
    && AsDecimal(parse, a).Some? && AsDecimal(parse, a) == AsDecimal(parse, b)
  }

  /** True counts as 1 and False as 0, and a boolean is equal to no other value of another kind. */
  lemma BoolsCount(b: bool, v: Json)
    ensures PyEq(Bool(b), v) <==> v == Bool(b) || v == Num(if b then 1.0 else 0.0)
    ensures PyEq(v, Bool(b)) <==> v == Bool(b) || v == Num(if b then 1.0 else 0.0)
  {
  }

  /** Exactly where Python's equality and `eq` differ, and in which direction. */
  lemma EqualitiesDiffer(parse: Parser, a: Json, b: Json)
    ensures PyEq(a, b) && !Eq(parse, a, b) <==> BoolAsNumber(a, b)
    ensures Eq(parse, a, b) && !PyEq(a, b) <==> TextAsNumber(parse, a, b)
  {
  }

  ghost predicate SomeEq(parse: Parser, a: Json, xs: seq<Json>) {
    exists i :: 0 <= i < |xs| && Eq(parse, a, xs[i])
  }

  ghost predicate SomeBoolAsNumber(a: Json, xs: seq<Json>) {
    exists i :: 0 <= i < |xs| && BoolAsNumber(a, xs[i])
  }

  ghost predicate SomeTextAsNumber(parse: Parser, a: Json, xs: seq<Json>) {
    exists i :: 0 <= i < |xs| && TextAsNumber(parse, a, xs[i])
  }

  /** An element that is equal to `a` whichever way they are compared. */
  ghost predicate SomePlainlyEqual(a: Json, xs: seq<Json>) {
    exists i :: 0 <= i < |xs| && PyEq(a, xs[i]) && !BoolAsNumber(a, xs[i])
  }

  /** `a in xs` is "`a` eq some element" if and only if an element is plainly equal, or there are elements
      of both exceptional kinds, or of neither. */
  lemma InIsEqExactly(parse: Parser, a: Json, xs: seq<Json>)
    ensures Apply(parse, "in", a, List(xs)) == Is(SomeEq(parse, a, xs)) <==>
      SomePlainlyEqual(a, xs) || (SomeBoolAsNumber(a, xs) <==> SomeTextAsNumber(parse, a, xs))
  {
    InApplies(parse, a, xs);
    hide PyEq, Eq, BoolAsNumber, TextAsNumber, Apply;
    forall i | 0 <= i < |xs|
      ensures PyEq(a, xs[i]) && !Eq(parse, a, xs[i]) <==> BoolAsNumber(a, xs[i])
      ensures Eq(parse, a, xs[i]) && !PyEq(a, xs[i]) <==> TextAsNumber(parse, a, xs[i])
    {
      EqualitiesDiffer(parse, a, xs[i]);
    }
  }

  lemma InApplies(parse: Parser, a: Json, xs: seq<Json>)
    ensures Apply(parse, "in", a, List(xs)) == Is(exists i :: 0 <= i < |xs| && PyEq(a, xs[i]))
  {
    hide PyEq, Eq;
    OperatorNames();
    assert List(xs).items == xs;
  }

  /** Both exceptions occur: a numeric string is not in a list of numbers that `eq` finds it equal to, and
      True is in a list that holds 1. */
  lemma InIsNotEq(parse: Parser, s: string, x: real)
    requires parse(s) == Some(x)
    ensures Eq(parse, Str(s), Num(x)) && Apply(parse, "in", Str(s), List([Num(x)])) == Is(false)
    ensures !Eq(parse, Bool(true), Num(1.0)) && Apply(parse, "in", Bool(true), List([Num(1.0)])) == Is(true)
  {
    InApplies(parse, Str(s), [Num(x)]);
    InApplies(parse, Bool(true), [Num(1.0)]);
    assert PyEq(Bool(true), [Num(1.0)][0]);
  }
}
