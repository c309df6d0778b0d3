/** `commit_chunk`: the optimistic read-max / insert / retry loop that numbers audit rows.

    The table holds the rows of every execution.  `id` stands for the row's primary key, and says
    which call wrote the row. */
module Audit {
  import opened Rows

  datatype AuditRow = AuditRow(execution: nat, sequence: int, event: Event, id: nat)

  /** The rows with property `keep`, in insertion order. */
  function Select(t: seq<AuditRow>, keep: AuditRow -> bool): seq<AuditRow> {
    if |t| == 0 then []
    else Select(t[..|t| - 1], keep) + (if keep(t[|t| - 1]) then [t[|t| - 1]] else [])
  }

  function Of(t: seq<AuditRow>, x: nat): seq<AuditRow> {
    Select(t, (r: AuditRow) => r.execution == x)
  }

  function By(t: seq<AuditRow>, id: nat): seq<AuditRow> {
    Select(t, (r: AuditRow) => r.id == id)
  }

  /** `select max(sequence) where execution_id = x`, or 0. */
  function MaxOf(t: seq<AuditRow>, x: nat): int {
    if |t| == 0 then 0
    else
      var m, r := MaxOf(t[..|t| - 1], x), t[|t| - 1];
      if r.execution == x && r.sequence > m then r.sequence else m
  }

  /** UNIQUE(execution_id, sequence) would be violated by inserting `rows`. */
  predicate Collides(t: seq<AuditRow>, rows: seq<AuditRow>) {
    exists i, j :: 0 <= i < |t| && 0 <= j < |rows| &&
      t[i].execution == rows[j].execution && t[i].sequence == rows[j].sequence
  }

  /** The rows of a chunk: consecutive numbers from `base`. */
  function Numbered(x: nat, id: nat, base: int, events: seq<Event>): (rows: seq<AuditRow>)
    ensures |rows| == |events|
    ensures forall i :: 0 <= i < |rows| ==> rows[i] == AuditRow(x, base + i, events[i], id)
  {
    if |events| == 0 then []
    else Numbered(x, id, base, events[..|events| - 1]) + [AuditRow(x, base + |events| - 1, events[|events| - 1], id)]
  }

  /** The sequence numbers of every execution are exactly 1..n, in insertion order. */
  ghost predicate GapFree(t: seq<AuditRow>) {
    forall x: nat, i :: 0 <= i < |Of(t, x)| ==> Of(t, x)[i].sequence == i + 1
  }

  // ---------------------------------------------------------------- selections

  lemma {:induction false} SelectConcat(a: seq<AuditRow>, b: seq<AuditRow>, keep: AuditRow -> bool)
    ensures Select(a + b, keep) == Select(a, keep) + Select(b, keep)
  {
    if |b| == 0 {
      assert a + b == a;
    } else {
      assert (a + b)[..|a + b| - 1] == a + b[..|b| - 1];
      SelectConcat(a, b[..|b| - 1], keep);
    }
  }

  lemma OfConcat(a: seq<AuditRow>, b: seq<AuditRow>, x: nat)
    ensures Of(a + b, x) == Of(a, x) + Of(b, x)
  {
    SelectConcat(a, b, (r: AuditRow) => r.execution == x);
  }

  lemma ByConcat(a: seq<AuditRow>, b: seq<AuditRow>, id: nat)
    ensures By(a + b, id) == By(a, id) + By(b, id)
  {
    SelectConcat(a, b, (r: AuditRow) => r.id == id);
  }

  lemma {:induction false} SelectMember(t: seq<AuditRow>, keep: AuditRow -> bool, r: AuditRow)
    ensures r in Select(t, keep) <==> r in t && keep(r)
  {
    if |t| > 0 {
      SelectMember(t[..|t| - 1], keep, r);
      assert t == t[..|t| - 1] + [t[|t| - 1]];
    }
  }

  lemma {:induction false} SelectAll(t: seq<AuditRow>, keep: AuditRow -> bool)
    requires forall i :: 0 <= i < |t| ==> keep(t[i])
    ensures Select(t, keep) == t
  {
    if |t| > 0 {
      SelectAll(t[..|t| - 1], keep);
      assert t == t[..|t| - 1] + [t[|t| - 1]];
    }
  }

  lemma {:induction false} SelectNone(t: seq<AuditRow>, keep: AuditRow -> bool)
    requires forall i :: 0 <= i < |t| ==> !keep(t[i])
    ensures Select(t, keep) == []
  {
    if |t| > 0 { SelectNone(t[..|t| - 1], keep); }
  }

  lemma NumberedOf(x: nat, id: nat, base: int, events: seq<Event>, y: nat)
    ensures Of(Numbered(x, id, base, events), y) == if x == y then Numbered(x, id, base, events) else []
  {
    var rows, keep := Numbered(x, id, base, events), (r: AuditRow) => r.execution == y;
    if x == y { SelectAll(rows, keep); } else { SelectNone(rows, keep); }
  }

  lemma NumberedBy(x: nat, id: nat, base: int, events: seq<Event>, j: nat)
    ensures By(Numbered(x, id, base, events), j) == if id == j then Numbered(x, id, base, events) else []
  {
    var rows, keep := Numbered(x, id, base, events), (r: AuditRow) => r.id == j;
    if id == j { SelectAll(rows, keep); } else { SelectNone(rows, keep); }
  }

  // ---------------------------------------------------------------- numbers and lengths

  lemma GapFreePrefix(a: seq<AuditRow>, b: seq<AuditRow>)
    requires GapFree(a + b)
    ensures GapFree(a)
  {
    forall x: nat, i | 0 <= i < |Of(a, x)| ensures Of(a, x)[i].sequence == i + 1 {
      OfConcat(a, b, x);
      assert Of(a + b, x)[i].sequence == i + 1;
    }
  }

  lemma {:induction false} MaxIsCount(t: seq<AuditRow>, x: nat)
    requires GapFree(t)
    ensures MaxOf(t, x) == |Of(t, x)|
  {
    if |t| > 0 {
      var s := t[..|t| - 1];
      assert t == s + [t[|t| - 1]];
      GapFreePrefix(s, [t[|t| - 1]]);
      MaxIsCount(s, x);
      if t[|t| - 1].execution == x {
        assert Of(t, x)[|Of(t, x)| - 1].sequence == |Of(t, x)|;
      }
    }
  }

  /** A chunk read at `base` collides exactly when the execution has got new rows since. */
  lemma CollidesIffGrown(t: seq<AuditRow>, x: nat, id: nat, base: int, events: seq<Event>)
    requires GapFree(t) && |events| > 0 && 1 <= base <= |Of(t, x)| + 1
    ensures Collides(t, Numbered(x, id, base, events)) <==> |Of(t, x)| >= base
  {
    var rows, keep := Numbered(x, id, base, events), (r: AuditRow) => r.execution == x;
    if |Of(t, x)| >= base {
      var r := Of(t, x)[base - 1];
      SelectMember(t, keep, r);
      var i :| 0 <= i < |t| && t[i] == r;
      assert t[i].sequence == rows[0].sequence;
    }
    if Collides(t, rows) {
      var i, j :| 0 <= i < |t| && 0 <= j < |rows| && t[i].execution == rows[j].execution &&
        t[i].sequence == rows[j].sequence;
      SelectMember(t, keep, t[i]);
      var k :| 0 <= k < |Of(t, x)| && Of(t, x)[k] == t[i];
      assert Of(t, x)[k].sequence == k + 1;
    }
  }

  /** A chunk that does not collide continues the numbering. */
  lemma AppendKeeps(t: seq<AuditRow>, x: nat, id: nat, base: int, events: seq<Event>)
    requires GapFree(t) && base == |Of(t, x)| + 1
    ensures GapFree(t + Numbered(x, id, base, events))
  {
    var rows := Numbered(x, id, base, events);
    forall y: nat, i | 0 <= i < |Of(t + rows, y)| ensures Of(t + rows, y)[i].sequence == i + 1 {
      OfConcat(t, rows, y);
      NumberedOf(x, id, base, events, y);
      if i < |Of(t, y)| { assert Of(t, y)[i].sequence == i + 1; }
    }
  }

  // ---------------------------------------------------------------- one call

  const ATTEMPTS := 5

  datatype Progress =
    | Reading(attempt: nat)
    | Committing(attempt: nat, base: int)
    | Returned(at: int)
    | Exhausted          // the fifth collision was re-raised
    | Failed             // any other exception

  /** `seen`: rows of the execution when the call began, kept for the theorems. */
  datatype Writer = Writer(execution: nat, events: seq<Event>, seen: nat, at: Progress)

  datatype Journal = Journal(table: seq<AuditRow>, writers: map<nat, Writer>)

  datatype Action =
    | Begin(execution: nat, events: seq<Event>)
    | Advance(otherError: bool)   // `otherError`: the attempt fails for any reason but the sequence constraint

  /** One read, or one commit or rollback, of call `c`. */
  function Apply(s: Journal, c: nat, a: Action): Journal {
    match a
    case Begin(x, events) =>
      if c in s.writers || |events| == 0 then s
      else s.(writers := s.writers[c := Writer(x, events, |Of(s.table, x)|, Reading(0))])
    case Advance(otherError) =>
      if c !in s.writers then s
      else
        var w := s.writers[c];
        match w.at
        case Reading(k) => s.(writers := s.writers[c := w.(at := Committing(k, MaxOf(s.table, w.execution) + 1))])
        case Committing(k, base) =>
          var rows := Numbered(w.execution, c, base, w.events);
          if otherError then s.(writers := s.writers[c := w.(at := Progress.Failed)])
          else if Collides(s.table, rows) then
            s.(writers := s.writers[c := w.(at := if k == ATTEMPTS - 1 then Exhausted else Reading(k + 1))])
          else Journal(s.table + rows, s.writers[c := w.(at := Returned(base))])
        case _ => s
  }

  datatype Turn = Turn(call: nat, action: Action)

  function Run(schedule: seq<Turn>): Journal {
    if |schedule| == 0 then Journal([], map[])
    else
      var t := schedule[|schedule| - 1];
      Apply(Run(schedule[..|schedule| - 1]), t.call, t.action)
  }

  // ---------------------------------------------------------------- all interleavings

  ghost predicate WriterOk(t: seq<AuditRow>, c: nat, w: Writer) {
    && |w.events| > 0
    && By(t, c) == (if w.at.Returned? then Numbered(w.execution, c, w.at.at, w.events) else [])
    && match w.at
       case Reading(k) => k < ATTEMPTS && w.seen + k <= |Of(t, w.execution)|
       case Committing(k, base) => k < ATTEMPTS && w.seen + k < base <= |Of(t, w.execution)| + 1
       case Returned(at) => w.seen < at
       case Exhausted => w.seen + ATTEMPTS <= |Of(t, w.execution)|
       case Failed => true
  }

  ghost predicate Inv(s: Journal) {
    && GapFree(s.table)
    && (forall c: nat :: c !in s.writers ==> By(s.table, c) == [])
    && (forall c :: c in s.writers ==> WriterOk(s.table, c, s.writers[c]))
  }

  /** What a commit of call `c` does to the other calls. */
  lemma OthersKeep(t: seq<AuditRow>, x: nat, c: nat, base: int, events: seq<Event>, d: nat, w: Writer)
    requires d != c
    ensures By(t + Numbered(x, c, base, events), d) == By(t, d)
    ensures WriterOk(t, d, w) ==> WriterOk(t + Numbered(x, c, base, events), d, w)
  {
    var rows := Numbered(x, c, base, events);
    ByConcat(t, rows, d);
    NumberedBy(x, c, base, events, d);
    OfConcat(t, rows, w.execution);
  }

  lemma CommitKeeps(s: Journal, c: nat)
    requires Inv(s) && c in s.writers && s.writers[c].at.Committing?
    requires !Collides(s.table, Numbered(s.writers[c].execution, c, s.writers[c].at.base, s.writers[c].events))
    ensures Inv(Apply(s, c, Advance(false)))
  {
    hide GapFree, Of, By, Collides, MaxOf;
    var w, t := s.writers[c], Apply(s, c, Advance(false));
    assert WriterOk(s.table, c, w);
    var base := w.at.base;
    CollidesIffGrown(s.table, w.execution, c, base, w.events);
    AppendKeeps(s.table, w.execution, c, base, w.events);
    ByConcat(s.table, Numbered(w.execution, c, base, w.events), c);
    NumberedBy(w.execution, c, base, w.events, c);
    OfConcat(s.table, Numbered(w.execution, c, base, w.events), w.execution);
    NumberedOf(w.execution, c, base, w.events, w.execution);
    forall d: nat | d !in t.writers ensures By(t.table, d) == [] {
      OthersKeep(s.table, w.execution, c, base, w.events, d, w);
    }
    forall d | d in t.writers ensures WriterOk(t.table, d, t.writers[d]) {
      if d != c { OthersKeep(s.table, w.execution, c, base, w.events, d, s.writers[d]); }
    }
  }

  /** Nothing but the progress of `c` changes. */
  lemma ProgressKeeps(s: Journal, c: nat, w: Writer)
    requires Inv(s) && WriterOk(s.table, c, w)
    ensures Inv(s.(writers := s.writers[c := w]))
  {
    hide GapFree, WriterOk;
  }

  lemma Keeps(s: Journal, c: nat, a: Action)
    requires Inv(s)
    ensures Inv(Apply(s, c, a))
  {
    if a.Begin? {
      if c !in s.writers && |a.events| > 0 {
        ProgressKeeps(s, c, Writer(a.execution, a.events, |Of(s.table, a.execution)|, Reading(0)));
      }
    } else if c in s.writers {
      AdvanceKeeps(s, c, a.otherError);
    }
  }

  lemma ReadKeeps(s: Journal, c: nat, w: Writer)
    requires Inv(s) && c in s.writers && w == s.writers[c] && w.at.Reading?
    ensures Inv(s.(writers := s.writers[c := w.(at := Committing(w.at.attempt, MaxOf(s.table, w.execution) + 1))]))
  {
    hide GapFree, Of, By, Numbered, Collides, MaxOf;
    assert WriterOk(s.table, c, w);
    MaxIsCount(s.table, w.execution);
    hide Inv;
    ProgressKeeps(s, c, w.(at := Committing(w.at.attempt, MaxOf(s.table, w.execution) + 1)));
  }

  /** A collision: somebody else's row is there. */
  lemma LoseKeeps(s: Journal, c: nat, w: Writer)
    requires Inv(s) && c in s.writers && w == s.writers[c] && w.at.Committing?
    requires Collides(s.table, Numbered(w.execution, c, w.at.base, w.events))
    ensures
      var next := if w.at.attempt == ATTEMPTS - 1 then Exhausted else Reading(w.at.attempt + 1);
      Inv(s.(writers := s.writers[c := w.(at := next)]))
  {
    hide GapFree, Of, By, Numbered, Collides, MaxOf;
    assert WriterOk(s.table, c, w);
    CollidesIffGrown(s.table, w.execution, c, w.at.base, w.events);
    hide Inv;
    ProgressKeeps(s, c, w.(at := if w.at.attempt == ATTEMPTS - 1 then Exhausted else Reading(w.at.attempt + 1)));
  }

  lemma FailKeeps(s: Journal, c: nat, w: Writer)
    requires Inv(s) && c in s.writers && w == s.writers[c] && w.at.Committing?
    ensures Inv(s.(writers := s.writers[c := w.(at := Progress.Failed)]))
  {
    assert WriterOk(s.table, c, w);
    hide Inv, GapFree, Of, By, Numbered, Collides, MaxOf;
    ProgressKeeps(s, c, w.(at := Progress.Failed));
  }

  lemma AdvanceKeeps(s: Journal, c: nat, otherError: bool)
    requires Inv(s) && c in s.writers
    ensures Inv(Apply(s, c, Advance(otherError)))
  {
    hide Inv, GapFree, Of, By, Numbered, Collides, MaxOf, WriterOk;
    var w := s.writers[c];
    if w.at.Reading? {
      ReadKeeps(s, c, w);
    } else if w.at.Committing? {
      if otherError { FailKeeps(s, c, w); }
      else if Collides(s.table, Numbered(w.execution, c, w.at.base, w.events)) { LoseKeeps(s, c, w); }
      else { CommitKeeps(s, c); }
    }
  }

  lemma {:induction false} Holds(schedule: seq<Turn>)
    ensures Inv(Run(schedule))
  {
    hide Inv;
    if |schedule| > 0 {
      var t := schedule[|schedule| - 1];
      Holds(schedule[..|schedule| - 1]);
      Keeps(Run(schedule[..|schedule| - 1]), t.call, t.action);
    } else {
      InitInv();
    }
  }

  lemma InitInv()
    ensures Inv(Journal([], map[]))
  {
  }

  /** However many calls interleave: in every execution the numbers are exactly 1..n. */
  lemma AlwaysGapFree(schedule: seq<Turn>)
    ensures GapFree(Run(schedule).table)
  {
    Holds(schedule);
  }

  /** A call that returned has its rows in the table once, consecutively numbered; a call that raised,
      or has not finished, has none; and five collisions mean five rows written by others meanwhile. */
  lemma AllOrNothing(schedule: seq<Turn>, c: nat)
    requires c in Run(schedule).writers
    ensures var s := Run(schedule);
      var w := s.writers[c];
      && By(s.table, c) == (if w.at.Returned? then Numbered(w.execution, c, w.at.at, w.events) else [])
      && (w.at.Exhausted? ==> |Of(s.table, w.execution)| >= w.seen + 5)
  {
    Holds(schedule);
    assert WriterOk(Run(schedule).table, c, Run(schedule).writers[c]);
  }

  /** An attempt is lost only to a row that others wrote to the same execution after its read. */
  lemma LostOnlyToOthers(schedule: seq<Turn>, c: nat)
    requires var s := Run(schedule); c in s.writers && s.writers[c].at.Committing?
    ensures var s := Run(schedule);
      var w := s.writers[c];
      var t := Apply(s, c, Advance(false));
      if |Of(s.table, w.execution)| + 1 == w.at.base
      then t.writers[c].at == Returned(w.at.base) && t.table == s.table + Numbered(w.execution, c, w.at.base, w.events)
      else t.table == s.table && t.writers[c].at == if w.at.attempt == 4 then Exhausted else Reading(w.at.attempt + 1)
  {
    Holds(schedule);
    var s := Run(schedule);
    hide Run, GapFree, Of, By, Numbered, Collides, MaxOf;
    var w := s.writers[c];
    assert WriterOk(s.table, c, w);
    MaxIsCount(s.table, w.execution);
    CollidesIffGrown(s.table, w.execution, c, w.at.base, w.events);
  }

  /** With nobody else at work the first attempt succeeds, numbering on from what is there. */
  lemma LoneWriter(schedule: seq<Turn>, c: nat, x: nat, events: seq<Event>)
    requires c !in Run(schedule).writers && |events| > 0
    ensures var s := Run(schedule);
      var t := Apply(Apply(Apply(s, c, Begin(x, events)), c, Advance(false)), c, Advance(false));
      var base := |Of(s.table, x)| + 1;
      t.writers[c].at == Returned(base) && t.table == s.table + Numbered(x, c, base, events)
  {
    var s := Run(schedule);
    var first, second := Turn(c, Begin(x, events)), Turn(c, Advance(false));
    assert (schedule + [first])[..|schedule|] == schedule;
    assert ((schedule + [first]) + [second])[..|schedule + [first]|] == schedule + [first];
    Holds(schedule);
    MaxIsCount(s.table, x);
    LostOnlyToOthers((schedule + [first]) + [second], c);
    hide Of, Numbered, Collides, MaxOf;
  }

  // ---------------------------------------------------------------- the loop itself

  function Flatten(chunks: seq<seq<AuditRow>>): seq<AuditRow> {
    if |chunks| == 0 then [] else Flatten(chunks[..|chunks| - 1]) + chunks[|chunks| - 1]
  }

  /** The first attempt during which nobody else wrote to the execution, or the number of attempts. */
  function FirstQuiet(others: seq<seq<AuditRow>>, x: nat): (k: nat)
    ensures k <= |others|
    ensures k < |others| ==> Of(others[k], x) == []
    ensures forall j :: 0 <= j < k ==> Of(others[j], x) != []
  {
    if |others| == 0 then 0
    else
      var k := FirstQuiet(others[..|others| - 1], x);
      if k < |others| - 1 || Of(others[|others| - 1], x) == [] then k else |others|
  }

  /** The table when the k-th commit is tried. */
  function Found(t: seq<AuditRow>, others: seq<seq<AuditRow>>, k: nat): seq<AuditRow>
    requires k < |others|
  {
    t + Flatten(others[..k + 1])
  }

  /** `rows` is `before` and the chunk, numbered on. */
  predicate Continues(rows: seq<AuditRow>, before: seq<AuditRow>, x: nat, id: nat, events: seq<Event>) {
    rows == before + Numbered(x, id, |Of(before, x)| + 1, events)
  }

  class AuditTable {
    var rows: seq<AuditRow>

    constructor ()
      ensures rows == [] && GapFree(rows)
    {
      rows := [];
    }

    /** The whole call.  `others[k]` is what other sessions commit between this call's k-th read and
        its k-th commit. */
    method CommitChunk(x: nat, id: nat, events: seq<Event>, others: seq<seq<AuditRow>>) returns (raised: bool)
      requires |events| > 0 && |others| == 5
      requires GapFree(rows + Flatten(others))
      modifies this
      ensures raised <==> FirstQuiet(others, x) == 5
      ensures raised ==> rows == old(rows) + Flatten(others)
      ensures !raised ==> Continues(rows, Found(old(rows), others, FirstQuiet(others, x)), x, id, events)
      ensures GapFree(rows)
    {
      var attempt := 0;
      raised := true;
      hide GapFree, Collides, MaxOf, Of, Flatten, Numbered;
      assert Flatten(others[..0]) == [] by { EmptyFlatten(others); }
      GapFreePrefix(rows, Flatten(others));
      while attempt < ATTEMPTS && raised
        invariant 0 <= attempt <= ATTEMPTS
        invariant raised ==> rows == old(rows) + Flatten(others[..attempt])
        invariant raised ==> forall j :: 0 <= j < attempt ==> Of(others[j], x) != []
        invariant !raised ==> attempt < ATTEMPTS && attempt == FirstQuiet(others, x)
        invariant !raised ==> Continues(rows, Found(old(rows), others, attempt), x, id, events)
        invariant GapFree(rows)
        decreases ATTEMPTS - attempt, raised
      {
        var baseSeq := MaxOf(rows, x) + 1;
        MaxIsCount(rows, x);
        OfConcat(rows, others[attempt], x);
        Interrupted(old(rows), others, attempt);
        rows := rows + others[attempt];
        CollidesIffGrown(rows, x, id, baseSeq, events);
        if !Collides(rows, Numbered(x, id, baseSeq, events)) {
          AppendKeeps(rows, x, id, baseSeq, events);
          rows := rows + Numbered(x, id, baseSeq, events);
          raised := false;
        } else {
          attempt := attempt + 1;
        }
      }
      assert others[..ATTEMPTS] == others;
    }
  }

  /** The table after the k-th interruption is still gap-free. */
  lemma Interrupted(t: seq<AuditRow>, others: seq<seq<AuditRow>>, k: nat)
    requires k < |others| && GapFree(t + Flatten(others))
    ensures (t + Flatten(others[..k])) + others[k] == t + Flatten(others[..k + 1])
    ensures GapFree(t + Flatten(others[..k + 1]))
  {
    hide *;
    FlattenNext(others, k);
    FlattenSplit(others, k + 1);
    var done, rest := t + Flatten(others[..k + 1]), Flatten(others[k + 1..]);
    assert t + Flatten(others) == done + rest;
    GapFreePrefix(done, rest);
  }

  lemma FlattenNext(others: seq<seq<AuditRow>>, k: nat)
    requires k < |others|
    ensures Flatten(others[..k + 1]) == Flatten(others[..k]) + others[k]
  {
    assert others[..k + 1][..k] == others[..k];
  }

  lemma EmptyFlatten(others: seq<seq<AuditRow>>)
    ensures Flatten(others[..0]) == []
  {
  }

  lemma {:induction false} FlattenSplit(chunks: seq<seq<AuditRow>>, k: nat)
    requires k <= |chunks|
    ensures Flatten(chunks) == Flatten(chunks[..k]) + Flatten(chunks[k..])
  {
    if k == |chunks| {
      assert chunks[..k] == chunks;
    } else {
      var front := chunks[..|chunks| - 1];
      FlattenSplit(front, k);
      assert front[..k] == chunks[..k] && front[k..] == chunks[k..][..|chunks[k..]| - 1];
    }
  }
}
