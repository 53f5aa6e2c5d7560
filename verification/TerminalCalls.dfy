/** bridgeTerminalCall (internal/codexadapter/appserver_bridge.go): the starts and terminals seen
    for one MCP call, folded in place and reconciled to one record at the end of the stream. */
module TerminalCalls {
  import opened Ordering
  import opened BridgeRecords

  /** The records of MCP calls are buffered, everything else is emitted at once. */
  predicate IsCallRecord(record: Record)
  {
    record.eventType == "tool.called" && record.kind == "mcp"
  }

  // ---------- observing ----------

  datatype Calls = Calls(started: Option<Record>, terminals: map<string, Record>)

  function Observed(c: Calls, record: Record): Calls
  {
    if record.identitySource == STARTED then
      if c.started.None? || record.observedAt < c.started.value.observedAt then c.(started := Some(record)) else c
    else if record.outcome !in c.terminals || record.observedAt < c.terminals[record.outcome].observedAt then
      c.(terminals := c.terminals[record.outcome := record])
    else c
  }

  function CallsOf(records: seq<Record>): Calls
  {
    if records == [] then Calls(None, map[])
    else Observed(CallsOf(records[..|records| - 1]), records[|records| - 1])
  }

  class TerminalCall {
    var started: Option<Record>
    var terminals: map<string, Record>

    function State(): Calls
      reads this
    {
      Calls(started, terminals)
    }

    constructor ()
      ensures State() == CallsOf([])
    {
      started, terminals := None, map[];
    }

    method Observe(record: Record)
      modifies this
      ensures State() == Observed(old(State()), record)
    {
      if record.identitySource == STARTED {
        if started.None? || record.observedAt < started.value.observedAt {
          started := Some(record);
        }
        return;
      }
      if record.outcome !in terminals || record.observedAt < terminals[record.outcome].observedAt {
        terminals := terminals[record.outcome := record];
      }
    }

    method Reconcile(r: Rules, key: string) returns (record: Record, category: string)
      requires started.Some? || terminals != map[]
      ensures IsReconciled(r, key, State(), record, category)
    {
      if |terminals| == 0 {
        assert terminals == map[];
        record := Unresolved(r, key, started.value, MISSING);
        return record, MISSING;
      }
      if |terminals| == 1 {
        var outcome :| outcome in terminals;
        OnlyOutcome(terminals, outcome);
        record := terminals[outcome];
        record := record.(idempotencyKey := VerdictKey(r, key, outcome));
        return record, "";
      }
      // Map iteration order is arbitrary, so a tie on the time may keep any of the tied records.
      var kept: Option<Record> := None;
      var rest := terminals.Keys;
      while rest != {}
        invariant rest <= terminals.Keys
        invariant kept.None? ==> rest == terminals.Keys
        invariant kept.Some? ==> exists o :: o in terminals && terminals[o] == kept.value
        invariant kept.Some? ==>
          forall o :: o in terminals && o !in rest ==> terminals[o].observedAt <= kept.value.observedAt
        decreases rest
      {
        var o :| o in rest;
        if kept.None? || terminals[o].observedAt > kept.value.observedAt { kept := Some(terminals[o]); }
        rest := rest - {o};
      }
      ghost var o :| o in terminals && terminals[o] == kept.value;
      assert Latest(terminals, o);
      record := Unresolved(r, key, kept.value, CONTRADICTORY);
      return record, CONTRADICTORY;
    }
  }

  lemma OnlyOutcome(terminals: map<string, Record>, outcome: string)
    requires |terminals| == 1 && outcome in terminals
    ensures terminals.Keys == {outcome}
  {
    assert |terminals.Keys - {outcome}| == 0;
    assert terminals.Keys == {outcome} + (terminals.Keys - {outcome});
  }

  // ---------- reconciling ----------

  const MISSING := "missing_terminal"
  const CONTRADICTORY := "contradictory_terminal"

  function VerdictKey(r: Rules, key: string, what: string): string
  {
    Pseudonym(r, "terminal-reconciliation/1", [key, what])
  }

  function Unresolved(r: Rules, key: string, record: Record, category: string): Record
  {
    record.(outcome := "unknown", duration := None, idempotencyKey := VerdictKey(r, key, category))
  }

  ghost predicate Latest(terminals: map<string, Record>, o: string)
  {
    o in terminals && forall p :: p in terminals ==> terminals[p].observedAt <= terminals[o].observedAt
  }

  /** The one record emitted for a call, up to the choice among terminals tied on the time. */
  ghost predicate IsReconciled(r: Rules, key: string, c: Calls, record: Record, category: string)
    requires c.started.Some? || c.terminals != map[]
  {
    if c.terminals == map[] then
      && record == Unresolved(r, key, c.started.value, MISSING)
      && category == MISSING
    else if exists o :: c.terminals.Keys == {o} then
      && category == ""
      && exists o :: c.terminals.Keys == {o} && record == c.terminals[o].(idempotencyKey := VerdictKey(r, key, o))
    else
      && category == CONTRADICTORY
      && exists o :: Latest(c.terminals, o) && record == Unresolved(r, key, c.terminals[o], CONTRADICTORY)
  }

  // ---------- what decides the verdict: the set of facts ----------

  /** One sighting of a call, without anything that does not decide its verdict. */
  datatype Fact = Started(at: int) | Ended(outcome: string, at: int)

  function FactOf(record: Record): Fact
  {
    if record.identitySource == STARTED then Started(record.observedAt) else Ended(record.outcome, record.observedAt)
  }

  function FactsOf(records: seq<Record>): set<Fact>
  {
    set record | record in records :: FactOf(record)
  }

  function Outcomes(facts: set<Fact>): set<string>
  {
    set f | f in facts && f.Ended? :: f.outcome
  }

  ghost predicate Earliest(facts: set<Fact>, f: Fact)
  {
    && f in facts
    && forall g :: g in facts && g.Started? == f.Started? && (f.Ended? ==> g.outcome == f.outcome) ==> f.at <= g.at
  }

  datatype Verdict = Verdict(outcome: string, key: string, at: int, category: string)

  function VerdictOf(record: Record, category: string): Verdict
  {
    Verdict(record.outcome, record.idempotencyKey, record.observedAt, category)
  }

  /** The verdict on a set of facts: no terminal, one terminal outcome, or several. */
  ghost predicate IsVerdict(r: Rules, key: string, facts: set<Fact>, v: Verdict)
  {
    if Outcomes(facts) == {} then
      && v.outcome == "unknown" && v.category == MISSING && v.key == VerdictKey(r, key, MISSING)
      && Earliest(facts, Started(v.at))
    else if exists o :: Outcomes(facts) == {o} then
      && Outcomes(facts) == {v.outcome} && v.category == "" && v.key == VerdictKey(r, key, v.outcome)
      && Earliest(facts, Ended(v.outcome, v.at))
    else
      && v.outcome == "unknown" && v.category == CONTRADICTORY && v.key == VerdictKey(r, key, CONTRADICTORY)
      && (exists o :: Earliest(facts, Ended(o, v.at)))
      && forall f: Fact :: f.Ended? && Earliest(facts, f) ==> f.at <= v.at
  }

  /** The facts decide the verdict. */
  lemma VerdictIsUnique(r: Rules, key: string, facts: set<Fact>, v: Verdict, w: Verdict)
    requires IsVerdict(r, key, facts, v) && IsVerdict(r, key, facts, w)
    ensures v == w
  {
    if Outcomes(facts) == {} {
      assert Started(v.at) in facts && Started(w.at) in facts;
    } else if exists o :: Outcomes(facts) == {o} {
      assert v.outcome in Outcomes(facts) && w.outcome in Outcomes(facts);
      assert Ended(v.outcome, v.at) in facts && Ended(w.outcome, w.at) in facts;
    } else {
      var o :| Earliest(facts, Ended(o, v.at));
      var p :| Earliest(facts, Ended(p, w.at));
      assert Ended(o, v.at).at <= w.at && Ended(p, w.at).at <= v.at;
    }
  }

  /** What folding the records keeps: the earliest start and the earliest terminal per outcome. */
  ghost predicate Summarises(c: Calls, facts: set<Fact>)
  {
    && (c.started.None? <==> forall f :: f in facts ==> f.Ended?)
    && (c.started.Some? ==>
        c.started.value.identitySource == STARTED && Earliest(facts, Started(c.started.value.observedAt)))
    && c.terminals.Keys == Outcomes(facts)
    && forall o :: o in c.terminals ==>
      c.terminals[o].outcome == o && Earliest(facts, Ended(o, c.terminals[o].observedAt))
  }

  lemma {:induction false} FoldSummarises(records: seq<Record>)
    ensures Summarises(CallsOf(records), FactsOf(records))
  {
    if records != [] {
      var n := |records| - 1;
      FoldSummarises(records[..n]);
      assert records == records[..n] + [records[n]];
      FactsSnoc(records[..n], records[n]);
      ObservedSummarises(CallsOf(records[..n]), FactsOf(records[..n]), records[n]);
    }
  }

  lemma FactsSnoc(front: seq<Record>, last: Record)
    ensures FactsOf(front + [last]) == FactsOf(front) + {FactOf(last)}
  {
    forall f | f in FactsOf(front) + {FactOf(last)} ensures f in FactsOf(front + [last]) {
      if f == FactOf(last) {
        assert last in front + [last];
      } else {
        var record :| record in front && FactOf(record) == f;
        assert record in front + [last];
      }
    }
  }

  lemma ObservedSummarises(c: Calls, facts: set<Fact>, record: Record)
    requires Summarises(c, facts)
    ensures Summarises(Observed(c, record), facts + {FactOf(record)})
  {
    hide Earliest, Outcomes;
    var after, now := Observed(c, record), facts + {FactOf(record)};
    OutcomesGrow(facts, FactOf(record));
    if record.identitySource == STARTED {
      StartSummarised(c, facts, record);
      forall o | o in after.terminals ensures Earliest(now, Ended(o, after.terminals[o].observedAt)) {
        OtherFact(facts, Ended(o, c.terminals[o].observedAt), FactOf(record));
      }
    } else {
      if c.started.Some? { OtherFact(facts, Started(c.started.value.observedAt), FactOf(record)); }
      forall o | o in after.terminals ensures Earliest(now, Ended(o, after.terminals[o].observedAt)) {
        TerminalSummarised(c, facts, record, o);
      }
    }
  }

  /** A start says nothing about terminals, and a terminal nothing about starts. */
  lemma OtherFact(facts: set<Fact>, f: Fact, other: Fact)
    requires Earliest(facts, f) && f.Started? != other.Started?
    ensures Earliest(facts + {other}, f)
  {
  }

  lemma OutcomesGrow(facts: set<Fact>, f: Fact)
    ensures Outcomes(facts + {f}) == Outcomes(facts) + if f.Ended? then {f.outcome} else {}
  {
    forall o | o in Outcomes(facts) ensures o in Outcomes(facts + {f}) {
      var g :| g in facts && g.Ended? && g.outcome == o;
      assert g in facts + {f};
    }
    if f.Ended? { assert f in facts + {f}; }
  }

  lemma StartSummarised(c: Calls, facts: set<Fact>, record: Record)
    requires Summarises(c, facts) && record.identitySource == STARTED
    ensures var after, now := Observed(c, record), facts + {FactOf(record)};
      after.started.Some? && after.started.value.identitySource == STARTED
      && Earliest(now, Started(after.started.value.observedAt))
  {
    if c.started.Some? { assert Earliest(facts, Started(c.started.value.observedAt)); }
  }

  lemma TerminalSummarised(c: Calls, facts: set<Fact>, record: Record, o: string)
    requires Summarises(c, facts) && record.identitySource != STARTED && o in Observed(c, record).terminals
    ensures Earliest(facts + {FactOf(record)}, Ended(o, Observed(c, record).terminals[o].observedAt))
  {
    if o in c.terminals {
      assert Earliest(facts, Ended(o, c.terminals[o].observedAt));
    } else {
      assert o !in Outcomes(facts);
      forall g | g in facts && g.Ended? ensures g.outcome != o {
        assert g.outcome in Outcomes(facts);
      }
    }
  }

  /** The emitted record's outcome, key, time and category are the verdict on the set of facts. */
  lemma ReconciledIsVerdict(r: Rules, key: string, records: seq<Record>, record: Record, category: string)
    requires records != [] && (CallsOf(records).started.Some? || CallsOf(records).terminals != map[])
    requires IsReconciled(r, key, CallsOf(records), record, category)
    ensures IsVerdict(r, key, FactsOf(records), VerdictOf(record, category))
  {
    hide CallsOf, FactsOf, Earliest, VerdictKey;
    var c, facts := CallsOf(records), FactsOf(records);
    FoldSummarises(records);
    SameEmptiness(c, facts);
    if c.terminals == map[] {
    } else if exists o :: c.terminals.Keys == {o} {
      var o :| c.terminals.Keys == {o} && record == c.terminals[o].(idempotencyKey := VerdictKey(r, key, o));
      assert o in c.terminals;
    } else {
      var o :| Latest(c.terminals, o) && record == Unresolved(r, key, c.terminals[o], CONTRADICTORY);
      assert Earliest(facts, Ended(o, record.observedAt));
      forall f: Fact | f.Ended? && Earliest(facts, f) ensures f.at <= record.observedAt {
        EarliestOfOutcome(c, facts, f);
      }
    }
  }

  lemma SameEmptiness(c: Calls, facts: set<Fact>)
    requires Summarises(c, facts)
    ensures c.terminals == map[] <==> Outcomes(facts) == {}
  {
    assert c.terminals == map[] <==> c.terminals.Keys == {};
  }

  lemma EarliestOfOutcome(c: Calls, facts: set<Fact>, f: Fact)
    requires Summarises(c, facts) && f.Ended? && Earliest(facts, f)
    ensures f.outcome in c.terminals && c.terminals[f.outcome].observedAt == f.at
  {
    assert f.outcome in Outcomes(facts);
    assert Earliest(facts, Ended(f.outcome, c.terminals[f.outcome].observedAt));
  }

  /** Duplicating or reordering sightings changes nothing in the verdict. */
  lemma VerdictIgnoresReplays(r: Rules, key: string, a: seq<Record>, b: seq<Record>, x: Record, catX: string,
                              y: Record, catY: string)
    requires a != [] && b != [] && FactsOf(a) == FactsOf(b)
    requires CallsOf(a).started.Some? || CallsOf(a).terminals != map[]
    requires CallsOf(b).started.Some? || CallsOf(b).terminals != map[]
    requires IsReconciled(r, key, CallsOf(a), x, catX) && IsReconciled(r, key, CallsOf(b), y, catY)
    ensures VerdictOf(x, catX) == VerdictOf(y, catY)
  {
    hide CallsOf, FactsOf, IsReconciled, IsVerdict;
    ReconciledIsVerdict(r, key, a, x, catX);
    ReconciledIsVerdict(r, key, b, y, catY);
    VerdictIsUnique(r, key, FactsOf(a), VerdictOf(x, catX), VerdictOf(y, catY));
  }

  /** A call that has been seen can be reconciled. */
  lemma SeenIsReconcilable(records: seq<Record>)
    requires records != []
    ensures CallsOf(records).started.Some? || CallsOf(records).terminals != map[]
  {
    var c := CallsOf(records[..|records| - 1]);
    var last := records[|records| - 1];
    assert last.identitySource != STARTED ==> last.outcome in Observed(c, last).terminals;
  }
}
