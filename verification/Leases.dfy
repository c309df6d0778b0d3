/** The stepping lease: sections that end in time never overlap, a superseded holder cannot undo
    anything, and the lease never sticks. */
module Leases {
  import opened Base
  import opened Rows
  import opened Protocol

  /** When the caller in a section claimed the lease. */
  function Since(pc: Pc): int
    requires InSection(pc)
  {
    pc.since
  }

  ghost predicate CallerOk(s: State, x: nat)
    requires x in s.callers
  {
    InSection(s.callers[x]) ==>
      && Since(s.callers[x]) <= s.clock
      && (s.rows.lease == Some(Lease(x, Since(s.callers[x]))) || s.clock > Since(s.callers[x]) + s.cfg.ttl)
  }

  ghost predicate Inv(s: State) {
    && (forall x :: x in s.callers ==> CallerOk(s, x))
    && (s.rows.lease.Some? ==>
          var h := s.rows.lease.value.holder;
          && s.rows.lease.value.claimedAt <= s.clock
          && h in s.callers && (InSection(s.callers[h]) || s.callers[h].Releasing?)
          && (InSection(s.callers[h]) ==> s.rows.lease.value.claimedAt == Since(s.callers[h])))
  }

  /** What one transition does to the lease and to its own section. */
  ghost predicate LocalOk(w: World, d: Rows, p: Pc, out: Out) {
    && (p.Claiming? && out.pc.Checking? ==>
          && out.pc.since <= w.clock && LeaseClaimable(d, out.pc.since, w.cfg.ttl)
          && out.rows.lease == Some(Lease(w.me, out.pc.since)))
    && (p.Releasing? ==> out.pc.Gone? && out.rows.lease == ReleaseLease(d, w.me).lease)
    && (!p.Releasing? && !(p.Claiming? && out.pc.Checking?) ==> out.rows.lease == d.lease)
    && (InSection(out.pc) && p.Claiming? ==> out.pc.Checking?)
    && (InSection(out.pc) && !p.Claiming? ==> InSection(p) && Since(out.pc) == Since(p))
    && (InSection(p) ==> InSection(out.pc) || out.pc.Releasing?)
    && (out.pc.Releasing? ==> InSection(p))
  }

  lemma RuntimeLocal(w: World, d: Rows, p: Pc, o: Oracle)
    requires IsRuntime(p)
    ensures LocalOk(w, d, p, GoRuntime(w, d, p, o))
  {
  }

  lemma GatewayLocal(w: World, d: Rows, p: Pc, o: Oracle)
    requires p.Gateway?
    ensures LocalOk(w, d, p, GoGateway(w, d, p.since, p.job, p.at, o))
  {
  }

  lemma ApprovalLocal(w: World, d: Rows, p: Pc, o: Oracle)
    requires IsApproval(p)
    ensures LocalOk(w, d, p, GoApproval(w, d, p, o))
  {
  }

  lemma Local(w: World, d: Rows, p: Pc, o: Oracle)
    ensures LocalOk(w, d, p, GoLocal(w, d, p, o))
  {
    hide GoGateway, GoApproval, GoRuntime;
    if p.Gateway? {
      GatewayLocal(w, d, p, o);
    } else if IsApproval(p) {
      ApprovalLocal(w, d, p, o);
    } else if !IsOther(p) {
      RuntimeLocal(w, d, p, o);
    }
  }

  lemma Keeps(s: State, x: nat, c: Choice)
    requires Inv(s)
    ensures Inv(Apply(s, x, c))
  {
    hide GoLocal;
    if c.Go? && x in s.callers {
      Local(World(s.cfg, s.clock, x), s.rows, s.callers[x], c.o);
      var t := Apply(s, x, c);
      forall y | y in t.callers ensures CallerOk(t, y) { assert CallerOk(s, y); }
    } else if x in s.callers {
      assert CallerOk(s, x);
    }
  }

  lemma {:induction false} Holds(cfg: Config, schedule: seq<Turn>)
    ensures Inv(Run(Init(cfg), schedule))
  {
    if |schedule| > 0 {
      var t := schedule[|schedule| - 1];
      Holds(cfg, schedule[..|schedule| - 1]);
      Keeps(Run(Init(cfg), schedule[..|schedule| - 1]), t.who, t.choice);
    }
  }

  /** Two sections never overlap while both are within the TTL of their claims. */
  lemma NoOverlap(cfg: Config, schedule: seq<Turn>, x: nat, y: nat)
    requires var s := Run(Init(cfg), schedule);
      x != y && x in s.callers && y in s.callers && InSection(s.callers[x]) && InSection(s.callers[y])
    ensures var s := Run(Init(cfg), schedule);
      s.clock > Since(s.callers[x]) + cfg.ttl || s.clock > Since(s.callers[y]) + cfg.ttl
  {
    Holds(cfg, schedule);
    ConfigStays(Init(cfg), schedule);
    var s := Run(Init(cfg), schedule);
    assert CallerOk(s, x) && CallerOk(s, y);
  }

  lemma {:induction false} ConfigStays(s: State, schedule: seq<Turn>)
    ensures Run(s, schedule).cfg == s.cfg
  {
    hide GoLocal;
    if |schedule| > 0 { ConfigStays(s, schedule[..|schedule| - 1]); }
  }

  /** A caller past its claim that does not hold the lease. */
  predicate Superseded(s: State, x: nat) {
    x in s.callers && (InSection(s.callers[x]) || s.callers[x].Releasing? || s.callers[x].Gone?) &&
      !HoldsLease(s.rows, x)
  }

  lemma SupersededStep(s: State, x: nat, y: nat, c: Choice)
    requires Superseded(s, x)
    ensures Superseded(Apply(s, y, c), x)
  {
    hide GoLocal;
    if c.Go? && y in s.callers {
      Local(World(s.cfg, s.clock, y), s.rows, s.callers[y], c.o);
      if y == x && s.callers[x].Gone? { GoneStays(World(s.cfg, s.clock, x), s.rows, c.o); }
    }
  }

  lemma GoneStays(w: World, d: Rows, o: Oracle)
    ensures GoLocal(w, d, Gone, o) == Out(d, Gone)
  {
  }

  /** Once superseded, a caller never holds the lease again, and its release changes no row. */
  lemma {:induction false} SupersededForever(s: State, x: nat, more: seq<Turn>)
    requires Superseded(s, x)
    ensures Superseded(Run(s, more), x)
    ensures ReleaseLease(Run(s, more).rows, x) == Run(s, more).rows
  {
    hide Apply;
    if |more| > 0 {
      SupersededForever(s, x, more[..|more| - 1]);
      SupersededStep(Run(s, more[..|more| - 1]), x, more[|more| - 1].who, more[|more| - 1].choice);
    }
  }

  /** Exactly when a claim wins: no lease, or one claimed more than the TTL before the claim's reading. */
  lemma ClaimWinsExactly(s: State, x: nat, o: Oracle)
    requires x in s.callers && s.callers[x].Claiming? && o.now <= s.clock
    ensures var t := Apply(s, x, Go(o));
      if s.rows.lease.None? || s.rows.lease.value.claimedAt + s.cfg.ttl < o.now
      then t.rows.lease == Some(Lease(x, o.now)) && t.callers[x].Checking?
      else t.rows == s.rows && t.callers[x].Gone?
  {
    hide GoGateway, GoApproval;
  }

  /** A lease claimed at most TTL ago cannot be taken. */
  lemma FreshLeaseStands(s: State, x: nat, o: Oracle)
    requires x in s.callers && s.callers[x].Claiming? && s.rows.lease.Some? && o.now <= s.clock
    requires s.clock <= s.rows.lease.value.claimedAt + s.cfg.ttl
    ensures Apply(s, x, Go(o)).rows == s.rows && Apply(s, x, Go(o)).callers[x].Gone?
  {
    hide GoLocal;
    ClaimWinsExactly(s, x, o);
  }

  lemma ClaimedBefore(s: State)
    requires Inv(s)
    ensures s.rows.lease.Some? ==> s.rows.lease.value.claimedAt <= s.clock
  {
  }

  /** From every reachable state, however the holder crashed: after any wait longer than the TTL, every
      claim whose reading is more than the TTL past the state's time wins. */
  lemma NeverSticks(cfg: Config, schedule: seq<Turn>, x: nat, wait: nat, o: Oracle)
    requires var s := Run(Init(cfg), schedule);
      x in s.callers && s.callers[x].Claiming? && s.clock + cfg.ttl < o.now <= s.clock + wait
    ensures var t := Apply(Apply(Run(Init(cfg), schedule), x, Tick(wait)), x, Go(o));
      HoldsLease(t.rows, x) && t.callers[x].Checking?
  {
    Holds(cfg, schedule);
    ConfigStays(Init(cfg), schedule);
    hide Run, Inv, GoLocal;
    var s := Run(Init(cfg), schedule);
    ClaimedBefore(s);
    ClaimWinsExactly(Apply(s, x, Tick(wait)), x, o);
  }
}
