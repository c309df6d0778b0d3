/** The row builders of the gateway: lists filled in place with a running sequence number.  Each
    numbers exactly its chunk of events from the base it was given, without a gap, and has at least
    one event; this is what `commit_chunk` needs of its callers. */
module GatewayRows {
  import opened Base
  import opened Rows
  import opened Chunks
  import opened Audit

  /** What a builder may put in its list. */
  datatype Item = EventItem(row: AuditRow) | PolicyItem | RequestItem | RiskItem | IncidentItem | ApprovalItem

  function Events(items: seq<Item>): seq<AuditRow> {
    if |items| == 0 then []
    else Events(items[..|items| - 1]) + (if items[|items| - 1].EventItem? then [items[|items| - 1].row] else [])
  }

  function Others(items: seq<Item>): seq<Item> {
    if |items| == 0 then []
    else Others(items[..|items| - 1]) + (if items[|items| - 1].EventItem? then [] else [items[|items| - 1]])
  }

  lemma Appended(items: seq<Item>, i: Item)
    ensures Events(items + [i]) == Events(items) + (if i.EventItem? then [i.row] else [])
    ensures Others(items + [i]) == Others(items) + (if i.EventItem? then [] else [i])
  {
    assert (items + [i])[..|items|] == items;
  }

  /** One more event continues the numbering. */
  lemma NumberedNext(x: nat, id: nat, base: int, events: seq<Event>, e: Event)
    ensures Numbered(x, id, base, events + [e]) == Numbered(x, id, base, events) + [AuditRow(x, base + |events|, e, id)]
  {
    assert (events + [e])[..|events|] == events;
  }

  /** The rows are these events, numbered on from `base`. */
  ghost predicate Is(rows: seq<AuditRow>, base: int, events: seq<Event>) {
    |rows| == |events| && forall i :: 0 <= i < |rows| ==> rows[i].sequence == base + i && rows[i].event == events[i]
  }

  /** The list being filled, with the number that the next event gets. */
  class Builder {
    const execution: nat
    const id: nat
    var items: seq<Item>
    var next: int
    ghost var base: int
    ghost var events: seq<Event>

    ghost predicate Valid()
      reads this
    {
      next == base + |events| && Events(items) == Numbered(execution, id, base, events)
    }

    constructor (execution: nat, id: nat, base: int)
      ensures Valid() && this.execution == execution && this.id == id && this.base == base
      ensures items == [] && Others(items) == [] && events == []
    {
      this.execution, this.id, this.items, this.next := execution, id, [], base;
      this.base, this.events := base, [];
    }

    /** `rows.append(AuditEvent(sequence=seq, ...)); seq += 1` */
    method AddEvent(e: Event)
      requires Valid()
      modifies this
      ensures Valid() && base == old(base) && events == old(events) + [e] && Others(items) == Others(old(items))
    {
      NumberedNext(execution, id, base, events, e);
      Appended(items, EventItem(AuditRow(execution, next, e, id)));
      items := items + [EventItem(AuditRow(execution, next, e, id))];
      next := next + 1;
      events := events + [e];
    }

    method AddItem(i: Item)
      requires Valid() && !i.EventItem?
      modifies this
      ensures Valid() && base == old(base) && events == old(events) && Others(items) == Others(old(items)) + [i]
    {
      Appended(items, i);
      items := items + [i];
    }
  }

  /** `_policy_outcome_rows`. */
  method PolicyRows(x: nat, id: nat, base: int, matched: bool, action: PolicyAction) returns (items: seq<Item>)
    ensures Events(items) == Numbered(x, id, base, PolicyChunk(matched, action)) && |Events(items)| > 0
    ensures Others(items) == [PolicyItem, RequestItem]
    ensures Is(Events(items), base, (if matched then [PolicyMatched] else []) +
      [if action.Allow? then PolicyAllowed else if action.Block? then PolicyBlocked else PolicyApprovalRequired])
  {
    hide Events, Others, Numbered;
    var b := new Builder(x, id, base);
    if matched { b.AddEvent(PolicyMatched); }
    b.AddEvent(PolicyEvent(action));
    b.AddItem(PolicyItem);
    b.AddItem(RequestItem);
    return b.items;
  }

  /** `build_risk_rows`; `synthetic`: a direct ALLOW writes its PolicyDecision here. */
  method RiskRows(x: nat, id: nat, base: int, signals: nat, synthetic: bool) returns (items: seq<Item>)
    ensures Events(items) == Numbered(x, id, base, RiskChunk(signals)) && |Events(items)| > 0
    ensures Others(items) == if synthetic then [RiskItem, PolicyItem] else [RiskItem]
    ensures Is(Events(items), base,
      [RiskAssessmentStarted] + seq(signals, i => RiskSignalDetected) + [RiskAssessed])
  {
    hide Events, Others, Numbered;
    var b := new Builder(x, id, base);
    b.AddEvent(RiskAssessmentStarted);
    for i := 0 to signals
      invariant b.Valid() && fresh(b) && b.base == base
      invariant b.events == [RiskAssessmentStarted] + SignalEvents(i)
      invariant Others(b.items) == []
    {
      b.AddEvent(RiskSignalDetected);
    }
    b.AddEvent(RiskAssessed);
    b.AddItem(RiskItem);
    if synthetic { b.AddItem(PolicyItem); }
    return b.items;
  }

  /** `build_block_rows`: the incident's event is the last, after two rows that are no events. */
  method BlockRows(x: nat, id: nat, base: int, escalated: bool, signals: nat) returns (items: seq<Item>)
    ensures Events(items) == Numbered(x, id, base, RiskBlockChunk(escalated, signals > 0)) && |Events(items)| > 0
    ensures Others(items) == if signals > 0 then [RequestItem, IncidentItem] else [RequestItem]
    ensures Is(Events(items), base, (if escalated then [RiskEscalated] else []) + [ActionBlockedByRisk] +
      (if signals > 0 then [SecurityIncidentCreated] else []))
  {
    hide Events, Others, Numbered;
    var b := new Builder(x, id, base);
    if escalated { b.AddEvent(RiskEscalated); }
    b.AddEvent(ActionBlockedByRisk);
    b.AddItem(RequestItem);
    if signals > 0 {
      b.AddItem(IncidentItem);
      b.AddEvent(SecurityIncidentCreated);
    }
    return b.items;
  }

  /** `build_rows` of `_create_approval_and_commit`, once its compare-and-set has won. */
  method ApprovalRows(x: nat, id: nat, base: int, escalated: bool) returns (items: seq<Item>)
    ensures Events(items) == Numbered(x, id, base, ApprovalChunk(escalated)) && |Events(items)| > 0
    ensures Others(items) == [RequestItem, ApprovalItem]
    ensures Is(Events(items), base, (if escalated then [RiskEscalated] else []) + [ApprovalRequested])
  {
    hide Events, Others, Numbered;
    var b := new Builder(x, id, base);
    if escalated { b.AddEvent(RiskEscalated); }
    b.AddEvent(ApprovalRequested);
    b.AddItem(RequestItem);
    b.AddItem(ApprovalItem);
    return b.items;
  }
}
