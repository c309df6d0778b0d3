/** When the order of a node's clauses matters: exactly when one clause errs and another one would stop
    the evaluation. */
module ClauseOrder {
  import opened Base
  import opened PolicyConditions

  function Node(key: string, clauses: seq<Json>): Json {
    Dict(map[key := List(clauses)])
  }

  /** The value of a clause that ends the evaluation: True under `any`, False under `all`. */
  predicate Stop(key: string) {
    key == "any"
  }

  predicate IsCombinator(key: string) {
    key == "all" || key == "any"
  }

  ghost predicate SomeErrs(parse: Parser, clauses: seq<Json>, context: Json) {
    exists c :: c in clauses && !Evaluate(parse, c, context).Is?
  }

  ghost predicate SomeIs(parse: Parser, clauses: seq<Json>, b: bool, context: Json) {
    exists c :: c in clauses && Evaluate(parse, c, context) == Is(b)
  }

  ghost predicate Permutes(ys: seq<Json>, xs: seq<Json>) {
    multiset(ys) == multiset(xs)
  }

  /** What the node says, with errors as unknown. */
  function Says(parse: Parser, key: string, clauses: seq<Json>, context: Json): Truth {
    Read(Evaluate(parse, Node(key, clauses), context))
  }

  /** `all` and `any` by their first deciding clause. */
  lemma NodeExactly(parse: Parser, key: string, cs: seq<Json>, context: Json)
    requires IsCombinator(key) && |cs| > 0
    ensures var r, go := Evaluate(parse, Node(key, cs), context), !Stop(key);
      && (r == Is(go) <==> forall k :: 0 <= k < |cs| ==> Evaluate(parse, cs[k], context) == Is(go))
      && (r == Is(!go) <==> exists k :: Decides(parse, cs, 0, k, go, context))
  {
    assert "all" != "any" by { assert "all"[1] != "any"[1]; }
    var node := Node(key, cs);
    NodeUnfolds(parse, key, cs, context);
    hide Evaluate;
    if key == "all" {
      AllExactly(parse, node, node.fields[key].items, 0, context);
    } else {
      AnyExactly(parse, node, node.fields[key].items, 0, context);
    }
  }

  lemma NodeUnfolds(parse: Parser, key: string, cs: seq<Json>, context: Json)
    requires IsCombinator(key) && |cs| > 0 && "all" != "any"
    ensures var node := Node(key, cs);
      && node.fields[key].items == cs && (forall k :: 0 <= k < |cs| ==> node.fields[key].items[k] < node)
      && Evaluate(parse, node, context) ==
           if key == "all" then EvaluateAll(parse, node, node.fields[key].items, 0, context)
           else EvaluateAny(parse, node, node.fields[key].items, 0, context)
  {
    hide EvaluateAll, EvaluateAny;
    assert Combines(Node(key, cs), key);
  }

  /** Among clauses that all answer, either all say `b` or there is a first that does not. */
  lemma {:induction false} FirstRefuser(parse: Parser, cs: seq<Json>, b: bool, context: Json)
    requires forall i :: 0 <= i < |cs| ==> Evaluate(parse, cs[i], context).Is?
    ensures (forall i :: 0 <= i < |cs| ==> Evaluate(parse, cs[i], context) == Is(b)) ||
            exists k :: Decides(parse, cs, 0, k, b, context)
  {
    hide Evaluate;
    if |cs| > 0 {
      var front := cs[..|cs| - 1];
      FirstRefuser(parse, front, b, context);
      if k :| Decides(parse, front, 0, k, b, context) {
        assert Decides(parse, cs, 0, k, b, context);
      } else {
        forall i | 0 <= i < |cs| - 1 ensures Evaluate(parse, cs[i], context) == Is(b) {
          assert front[i] == cs[i];
        }
        if Evaluate(parse, cs[|cs| - 1], context) == Is(!b) {
          assert Decides(parse, cs, 0, |cs| - 1, b, context);
        }
      }
    }
  }

  lemma Quiet(parse: Parser, key: string, cs: seq<Json>, context: Json)
    requires IsCombinator(key) && |cs| > 0 && !SomeErrs(parse, cs, context)
    ensures Says(parse, key, cs, context) == Read(Is(SomeIs(parse, cs, Stop(key), context) == Stop(key)))
  {
    hide Evaluate;
    NodeExactly(parse, key, cs, context);
    forall i | 0 <= i < |cs| ensures Evaluate(parse, cs[i], context).Is? { assert cs[i] in cs; }
    var go := !Stop(key);
    FirstRefuser(parse, cs, go, context);
    if k :| Decides(parse, cs, 0, k, go, context) { assert cs[k] in cs; }
  }

  lemma Hopeless(parse: Parser, key: string, cs: seq<Json>, context: Json)
    requires IsCombinator(key) && SomeErrs(parse, cs, context) && !SomeIs(parse, cs, Stop(key), context)
    ensures Says(parse, key, cs, context) == Unknown
  {
    hide Evaluate;
    NodeExactly(parse, key, cs, context);
    var go := !Stop(key);
    forall k ensures !Decides(parse, cs, 0, k, go, context) {
      if 0 <= k < |cs| { assert cs[k] in cs; }
    }
  }

  /** The clauses with the i-th one first. */
  function Front(cs: seq<Json>, i: nat): seq<Json>
    requires i < |cs|
  {
    [cs[i]] + (cs[..i] + cs[i + 1..])
  }

  lemma FrontPermutes(cs: seq<Json>, i: nat)
    requires i < |cs|
    ensures Permutes(Front(cs, i), cs)
  {
    assert cs == cs[..i] + [cs[i]] + cs[i + 1..];
  }

  /** A stopping clause put first answers; a failing clause put first does not. */
  lemma FirstSays(parse: Parser, key: string, cs: seq<Json>, i: nat, context: Json)
    requires IsCombinator(key) && i < |cs|
    ensures Evaluate(parse, cs[i], context) == Is(Stop(key)) ==> Says(parse, key, Front(cs, i), context) != Unknown
    ensures !Evaluate(parse, cs[i], context).Is? ==> Says(parse, key, Front(cs, i), context) == Unknown
  {
    hide Evaluate;
    var ys, b := Front(cs, i), Stop(key);
    NodeExactly(parse, key, ys, context);
    assert ys[0] == cs[i];
    if Evaluate(parse, cs[i], context) == Is(b) { assert Decides(parse, ys, 0, 0, !b, context); }
  }

  lemma SameMembers(parse: Parser, ys: seq<Json>, cs: seq<Json>, b: bool, context: Json)
    requires Permutes(ys, cs)
    ensures |ys| == |cs|
    ensures SomeErrs(parse, ys, context) <==> SomeErrs(parse, cs, context)
    ensures SomeIs(parse, ys, b, context) <==> SomeIs(parse, cs, b, context)
  {
    hide Evaluate;
    assert |ys| == |multiset(ys)| && |cs| == |multiset(cs)|;
    forall c ensures c in ys <==> c in cs { assert c in multiset(ys) <==> c in multiset(cs); }
  }

  ghost predicate Reorderable(parse: Parser, key: string, cs: seq<Json>, context: Json) {
    forall ys :: Permutes(ys, cs) ==> Says(parse, key, ys, context) == Says(parse, key, cs, context)
  }

  /** A node says the same in every order of its clauses, answer or error, if and only if no clause errs
      or no clause would stop the evaluation. */
  lemma ReorderableExactly(parse: Parser, key: string, cs: seq<Json>, context: Json)
    requires IsCombinator(key) && |cs| > 0
    ensures Reorderable(parse, key, cs, context) <==>
      !SomeErrs(parse, cs, context) || !SomeIs(parse, cs, Stop(key), context)
  {
    hide Evaluate, Says, Permutes;
    if SomeErrs(parse, cs, context) && SomeIs(parse, cs, Stop(key), context) {
      var c :| c in cs && !Evaluate(parse, c, context).Is?;
      var d :| d in cs && Evaluate(parse, d, context) == Is(Stop(key));
      var i: nat :| i < |cs| && cs[i] == c;
      var j: nat :| j < |cs| && cs[j] == d;
      FrontPermutes(cs, i);
      FrontPermutes(cs, j);
      FirstSays(parse, key, cs, i, context);
      FirstSays(parse, key, cs, j, context);
      assert Says(parse, key, Front(cs, i), context) != Says(parse, key, Front(cs, j), context);
    } else {
      forall ys | Permutes(ys, cs) ensures Says(parse, key, ys, context) == Says(parse, key, cs, context) {
        SameMembers(parse, ys, cs, Stop(key), context);
        if SomeErrs(parse, cs, context) {
          Hopeless(parse, key, cs, context);
          Hopeless(parse, key, ys, context);
        } else {
          Quiet(parse, key, cs, context);
          Quiet(parse, key, ys, context);
        }
      }
    }
  }
}
