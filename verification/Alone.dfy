/** One call running alone: the bridge between the procedures, written as the services write them,
    and the state machine. */
module Alone {
  import opened Base
  import opened Rows
  import opened Protocol
  import Le = Leases

  /** What the outside answers to one call; a retried tool call asks again. */
  datatype Env = Env(first: Oracle, retry: Oracle)

  predicate Past(w: World, env: Env) {
    env.first.now <= w.clock && env.retry.now <= w.clock && !env.first.collided
  }

  function Answer(env: Env, pc: Pc): Oracle {
    if pc.Gateway? && !pc.job.mayRetry then env.retry else env.first
  }

  function Iterate(w: World, d: Rows, pc: Pc, env: Env, n: nat): Out {
    if n == 0 then Out(d, pc)
    else
      var b := Iterate(w, d, pc, env, n - 1);
      GoLocal(w, b.rows, b.pc, Answer(env, b.pc))
  }

  /** From (d, pc) the call comes to (e, q) with nobody else acting. */
  ghost predicate Reaches(w: World, env: Env, d: Rows, pc: Pc, e: Rows, q: Pc) {
    exists n: nat :: Iterate(w, d, pc, env, n) == Out(e, q)
  }

  lemma Here(w: World, env: Env, d: Rows, pc: Pc)
    ensures Reaches(w, env, d, pc, d, pc)
  {
    assert Iterate(w, d, pc, env, 0) == Out(d, pc);
  }

  /** One more transition. */
  lemma Then(w: World, env: Env, d: Rows, pc: Pc, e: Rows, q: Pc, f: Rows, r: Pc)
    requires Reaches(w, env, d, pc, e, q) && GoLocal(w, e, q, Answer(env, q)) == Out(f, r)
    ensures Reaches(w, env, d, pc, f, r)
  {
    var n: nat :| Iterate(w, d, pc, env, n) == Out(e, q);
    assert Iterate(w, d, pc, env, n + 1) == Out(f, r);
  }

  lemma {:induction false} IterateSum(w: World, d: Rows, pc: Pc, env: Env, m: nat, n: nat)
    ensures var b := Iterate(w, d, pc, env, m);
      Iterate(w, d, pc, env, m + n) == Iterate(w, b.rows, b.pc, env, n)
  {
    hide GoLocal;
    if n > 0 { IterateSum(w, d, pc, env, m, n - 1); }
  }

  lemma Chain(w: World, env: Env, d: Rows, pc: Pc, e: Rows, q: Pc, f: Rows, r: Pc)
    requires Reaches(w, env, d, pc, e, q) && Reaches(w, env, e, q, f, r)
    ensures Reaches(w, env, d, pc, f, r)
  {
    hide GoLocal;
    var m: nat :| Iterate(w, d, pc, env, m) == Out(e, q);
    var n: nat :| Iterate(w, e, q, env, n) == Out(f, r);
    IterateSum(w, d, pc, env, m, n);
  }

  /** A finished call has one result: the rows it leaves are a function of the rows it found. */
  lemma Determined(w: World, env: Env, d: Rows, pc: Pc, e: Rows, f: Rows)
    requires Reaches(w, env, d, pc, e, Gone) && Reaches(w, env, d, pc, f, Gone)
    ensures e == f
  {
    hide GoLocal;
    var m: nat :| Iterate(w, d, pc, env, m) == Out(e, Gone);
    var n: nat :| Iterate(w, d, pc, env, n) == Out(f, Gone);
    if m <= n {
      IterateSum(w, d, pc, env, m, n - m);
      GoneStays(w, e, env, n - m);
    } else {
      IterateSum(w, d, pc, env, n, m - n);
      GoneStays(w, f, env, m - n);
    }
  }

  lemma {:induction false} GoneStays(w: World, d: Rows, env: Env, n: nat)
    ensures Iterate(w, d, Gone, env, n) == Out(d, Gone)
  {
    hide GoLocal;
    if n > 0 {
      GoneStays(w, d, env, n - 1);
      Le.GoneStays(w, d, Answer(env, Gone));
    }
  }

  // ---------------------------------------------------------------- alone, in the machine

  /** `n` turns of caller `x` and of nobody else. */
  function Turns(w: World, d: Rows, pc: Pc, env: Env, n: nat): seq<Turn> {
    if n == 0 then []
    else Turns(w, d, pc, env, n - 1) + [Turn(w.me, Go(Answer(env, Iterate(w, d, pc, env, n - 1).pc)))]
  }

  /** One turn of the caller alone, from where it stands. */
  lemma OneTurn(s: State, t: State, w: World, o: Oracle, b: Out)
    requires w == World(s.cfg, s.clock, w.me) && t.cfg == s.cfg && t.clock == s.clock
    requires t.rows == b.rows && t.callers == s.callers[w.me := b.pc]
    ensures var out, u := GoLocal(w, b.rows, b.pc, o), Apply(t, w.me, Go(o));
      u.rows == out.rows && u.callers == s.callers[w.me := out.pc] && u.clock == s.clock && u.cfg == s.cfg
  {
    hide GoLocal, Takeover;
  }

  lemma {:induction false} TurnsRun(s: State, w: World, env: Env, n: nat)
    requires w == World(s.cfg, s.clock, w.me) && w.me in s.callers
    ensures var out := Iterate(w, s.rows, s.callers[w.me], env, n);
      var t := Run(s, Turns(w, s.rows, s.callers[w.me], env, n));
      && t.rows == out.rows && t.callers == s.callers[w.me := out.pc] && t.clock == s.clock && t.cfg == s.cfg
  {
    hide GoLocal, Takeover, Apply;
    if n > 0 {
      TurnsRun(s, w, env, n - 1);
      var before, b := Turns(w, s.rows, s.callers[w.me], env, n - 1), Iterate(w, s.rows, s.callers[w.me], env, n - 1);
      var more := Turns(w, s.rows, s.callers[w.me], env, n);
      assert more == before + [Turn(w.me, Go(Answer(env, b.pc)))] && more[..|more| - 1] == before;
      OneTurn(s, Run(s, before), w, Answer(env, b.pc), b);
    }
  }

  /** Whatever a call does alone is a run of the machine, so everything proved about all runs holds
      of the rows it leaves. */
  lemma IsARun(s: State, w: World, env: Env, e: Rows, q: Pc)
    requires w == World(s.cfg, s.clock, w.me) && w.me in s.callers
    requires Reaches(w, env, s.rows, s.callers[w.me], e, q)
    ensures exists more: seq<Turn> :: Run(s, more).rows == e && Run(s, more).callers == s.callers[w.me := q]
  {
    var n: nat :| Iterate(w, s.rows, s.callers[w.me], env, n) == Out(e, q);
    TurnsRun(s, w, env, n);
  }
}
