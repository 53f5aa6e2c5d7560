/** What one stream of frames calls for: the events that reach the sink as frames arrive, the
    buffered sightings of MCP calls, and the one verdict per call at the end. */
module BridgeRuns {
  import opened Ordering
  import opened BridgeRecords
  import opened BridgeProjections
  import opened BridgeFrames
  import opened TerminalCalls

  /** What a sink was given. */
  datatype Event = Asserted(record: Record) | Refused(category: string, bytes: nat)

  function FrameOf(): Line -> Frame
  {
    (line: Line) => line.frame
  }

  // ---------- per frame ----------

  function Immediate(records: seq<Record>): seq<Event>
  {
    if records == [] then []
    else
      var before, last := Immediate(records[..|records| - 1]), records[|records| - 1];
      before + if IsCallRecord(last) then [] else [Asserted(last)]
  }

  function CallRecords(records: seq<Record>): seq<Record>
  {
    if records == [] then []
    else
      var before, last := CallRecords(records[..|records| - 1]), records[|records| - 1];
      before + if IsCallRecord(last) then [last] else []
  }

  function EventsOf(p: Projection, line: Line): seq<Event>
  {
    match p
    case Rejected(category) => [Refused(category, line.bytes)]
    case Projected(records) => Immediate(records)
  }

  function CallsIn(p: Projection): seq<Record>
  {
    match p
    case Rejected(_) => []
    case Projected(records) => CallRecords(records)
  }

  /** The projection of the line after front, given every frame the bridge has seen before. */
  function NextProjection(r: Rules, history: seq<Frame>, front: seq<Line>, line: Line): Projection
  {
    FrameProjection(r, PendingOf(r, history + Map(FrameOf(), front)), line, |front| + 1)
  }

  // ---------- per stream ----------

  /** The events a stream causes while it is read. */
  function Emissions(r: Rules, history: seq<Frame>, lines: seq<Line>): seq<Event>
  {
    if lines == [] then []
    else
      var n := |lines| - 1;
      Emissions(r, history, lines[..n]) + EventsOf(NextProjection(r, history, lines[..n], lines[n]), lines[n])
  }

  /** The MCP call records a stream contributes. */
  function Sightings(r: Rules, history: seq<Frame>, lines: seq<Line>): seq<Record>
  {
    if lines == [] then []
    else
      var n := |lines| - 1;
      Sightings(r, history, lines[..n]) + CallsIn(NextProjection(r, history, lines[..n], lines[n]))
  }

  function OfKey(records: seq<Record>, key: string): seq<Record>
  {
    if records == [] then []
    else
      var before, last := OfKey(records[..|records| - 1], key), records[|records| - 1];
      before + if last.source == key then [last] else []
  }

  /** The call keys in order of first sighting. */
  function KeysOf(records: seq<Record>): seq<string>
  {
    if records == [] then []
    else
      var before, key := KeysOf(records[..|records| - 1]), records[|records| - 1].source;
      if key in before then before else before + [key]
  }

  lemma {:induction false} KeysOfMembers(records: seq<Record>)
    ensures NoDuplicates(KeysOf(records))
    ensures forall key :: key in KeysOf(records) <==> exists record :: record in records && record.source == key
  {
    if records != [] {
      var n := |records| - 1;
      var front, last := records[..n], records[n];
      assert records == front + [last];
      KeysOfMembers(front);
      NoDuplicatesIf(KeysOf(front), last.source);
      forall key ensures key in KeysOf(records) <==> exists record :: record in records && record.source == key {
        if record :| record in front && record.source == key { assert record in records; }
        if key == last.source { assert last in records; }
      }
    }
  }

  lemma NoDuplicatesIf(keys: seq<string>, key: string)
    requires NoDuplicates(keys)
    ensures key !in keys ==> NoDuplicates(keys + [key])
  {
    if key !in keys { NoDuplicatesSnoc(keys, key); }
  }

  lemma {:induction false} OfKeyMembers(records: seq<Record>, key: string)
    ensures forall record :: record in OfKey(records, key) <==> record in records && record.source == key
  {
    if records != [] {
      var n := |records| - 1;
      assert records == records[..n] + [records[n]];
      OfKeyMembers(records[..n], key);
    }
  }

  lemma SightedKeyIsReconcilable(records: seq<Record>, key: string)
    requires key in KeysOf(records)
    ensures OfKey(records, key) != []
    ensures CallsOf(OfKey(records, key)).started.Some? || CallsOf(OfKey(records, key)).terminals != map[]
  {
    hide CallsOf, KeysOf, OfKey;
    KeysOfMembers(records);
    OfKeyMembers(records, key);
    var record :| record in records && record.source == key;
    assert record in OfKey(records, key);
    SeenIsReconcilable(OfKey(records, key));
  }

  // ---------- at the end of the stream ----------

  datatype Final = Final(record: Record, category: string)

  /** One reconciled record per call key, in order of first sighting. */
  ghost predicate AreFinals(r: Rules, sightings: seq<Record>, keys: seq<string>, finals: seq<Final>)
    requires forall key :: key in keys ==> key in KeysOf(sightings)
  {
    && |finals| == |keys|
    && forall i {:trigger finals[i]} :: 0 <= i < |finals| ==> IsFinal(r, sightings, keys[i], finals[i])
  }

  ghost predicate IsFinal(r: Rules, sightings: seq<Record>, key: string, final: Final)
    requires key in KeysOf(sightings)
  {
    SightedKeyIsReconcilable(sightings, key);
    IsReconciled(r, key, CallsOf(OfKey(sightings, key)), final.record, final.category)
  }

  function FinalEvents(finals: seq<Final>): seq<Event>
  {
    if finals == [] then []
    else
      var f := finals[|finals| - 1];
      FinalEvents(finals[..|finals| - 1]) + [Asserted(f.record)]
      + (if f.category != "" then [Refused(f.category, 0)] else [])
  }

  // ---------- counting events ----------

  function AcceptCount(events: seq<Event>): nat
  {
    if events == [] then 0 else AcceptCount(events[..|events| - 1]) + if events[|events| - 1].Asserted? then 1 else 0
  }

  function RejectCount(events: seq<Event>): nat
  {
    if events == [] then 0 else RejectCount(events[..|events| - 1]) + if events[|events| - 1].Refused? then 1 else 0
  }

  /** The latest time among a starting one and the asserted records. */
  function LatestOf(start: int, events: seq<Event>): int
  {
    if events == [] then start
    else
      var before, e := LatestOf(start, events[..|events| - 1]), events[|events| - 1];
      if e.Asserted? && e.record.observedAt > before then e.record.observedAt else before
  }

  lemma {:induction false} LatestOfIsMax(start: int, events: seq<Event>)
    ensures LatestOf(start, events) >= start
    ensures forall e :: e in events && e.Asserted? ==> e.record.observedAt <= LatestOf(start, events)
    ensures LatestOf(start, events) == start
      || exists e :: e in events && e.Asserted? && e.record.observedAt == LatestOf(start, events)
  {
    if events != [] {
      var n := |events| - 1;
      assert events == events[..n] + [events[n]];
      LatestOfIsMax(start, events[..n]);
      assert events[n] in events;
      if e :| e in events[..n] && e.Asserted? && e.record.observedAt == LatestOf(start, events[..n]) {
        assert e in events;
      }
    }
  }

  /** The latest time after each acceptance. */
  function AcceptTimes(start: int, events: seq<Event>): seq<int>
  {
    if events == [] then []
    else
      var before := AcceptTimes(start, events[..|events| - 1]);
      if events[|events| - 1].Asserted? then before + [LatestOf(start, events)] else before
  }

  /** The events up to and including acceptance number k, counted from zero. */
  function UpTo(events: seq<Event>, k: nat): (r: seq<Event>)
    requires k < AcceptCount(events)
    ensures r <= events && AcceptCount(r) == k + 1 && r[|r| - 1].Asserted?
  {
    var n := |events| - 1;
    if k < AcceptCount(events[..n]) then
      var r := UpTo(events[..n], k);
      assert r[..|r|] == r;
      r
    else events
  }

  lemma {:induction false} AcceptTimesAt(start: int, events: seq<Event>)
    ensures |AcceptTimes(start, events)| == AcceptCount(events)
    ensures forall k :: 0 <= k < AcceptCount(events) ==>
      AcceptTimes(start, events)[k] == LatestOf(start, UpTo(events, k))
  {
    hide LatestOf;
    if events != [] { AcceptTimesAt(start, events[..|events| - 1]); }
  }

  /** A time is the latest of a starting one and those of the accepted records, and is one of them. */
  ghost predicate IsLatest(start: int, events: seq<Event>, time: int)
  {
    && time >= start && (forall e :: e in events && e.Asserted? ==> e.record.observedAt <= time)
    && (time == start || exists e :: e in events && e.Asserted? && e.record.observedAt == time)
  }

  lemma {:induction false} CountsConcat(s: seq<Event>, t: seq<Event>)
    ensures AcceptCount(s + t) == AcceptCount(s) + AcceptCount(t)
    ensures RejectCount(s + t) == RejectCount(s) + RejectCount(t)
  {
    if t == [] {
      assert s + t == s;
    } else {
      var n := |t| - 1;
      assert (s + t)[..|s| + n] == s + t[..n];
      CountsConcat(s, t[..n]);
    }
  }

  // ---------- accounting ----------

  /** Frames that were rejected, and records that went straight to the sink. */
  function RejectedFrames(r: Rules, history: seq<Frame>, lines: seq<Line>): nat
  {
    if lines == [] then 0
    else
      var n := |lines| - 1;
      RejectedFrames(r, history, lines[..n])
      + (if NextProjection(r, history, lines[..n], lines[n]).Rejected? then 1 else 0)
  }

  function ImmediateRecords(r: Rules, history: seq<Frame>, lines: seq<Line>): nat
  {
    if lines == [] then 0
    else
      var n := |lines| - 1;
      var p := NextProjection(r, history, lines[..n], lines[n]);
      ImmediateRecords(r, history, lines[..n]) + if p.Projected? then |Immediate(p.records)| else 0
  }

  lemma {:induction false} ImmediateCount(records: seq<Record>)
    ensures AcceptCount(Immediate(records)) == |Immediate(records)| && RejectCount(Immediate(records)) == 0
    ensures |Immediate(records)| + |CallRecords(records)| == |records|
  {
    if records != [] {
      var n := |records| - 1;
      ImmediateCount(records[..n]);
      if !IsCallRecord(records[n]) {
        CountsConcat(Immediate(records[..n]), [Asserted(records[n])]);
        assert [Asserted(records[n])][..0] == [];
      } else {
        assert Immediate(records[..n]) + [] == Immediate(records[..n]);
      }
    }
  }

  lemma {:induction false} EmissionsCount(r: Rules, history: seq<Frame>, lines: seq<Line>)
    ensures AcceptCount(Emissions(r, history, lines)) == ImmediateRecords(r, history, lines)
    ensures RejectCount(Emissions(r, history, lines)) == RejectedFrames(r, history, lines)
  {
    hide NextProjection, Immediate, CallRecords;
    if lines != [] {
      var n := |lines| - 1;
      EmissionsCount(r, history, lines[..n]);
      var p := NextProjection(r, history, lines[..n], lines[n]);
      CountsConcat(Emissions(r, history, lines[..n]), EventsOf(p, lines[n]));
      if p.Projected? { ImmediateCount(p.records); } else { OneRefusal(p.category, lines[n].bytes); }
    }
  }

  lemma OneRefusal(category: string, bytes: nat)
    ensures AcceptCount([Refused(category, bytes)]) == 0 && RejectCount([Refused(category, bytes)]) == 1
  {
    assert [Refused(category, bytes)][..0] == [];
  }

  lemma OneAssertion(record: Record)
    ensures AcceptCount([Asserted(record)]) == 1 && RejectCount([Asserted(record)]) == 0
  {
    assert [Asserted(record)][..0] == [];
  }

  /** A call whose sightings hold no terminal, or several different ones. */
  predicate UnresolvedKey(sightings: seq<Record>, key: string)
  {
    |Outcomes(FactsOf(OfKey(sightings, key)))| != 1
  }

  function UnresolvedCount(sightings: seq<Record>, keys: seq<string>): nat
  {
    if keys == [] then 0
    else UnresolvedCount(sightings, keys[..|keys| - 1]) + if UnresolvedKey(sightings, keys[|keys| - 1]) then 1 else 0
  }

  lemma OneMoreFinal(front: seq<Final>, f: Final)
    ensures AcceptCount(FinalEvents(front + [f])) == AcceptCount(FinalEvents(front)) + 1
    ensures RejectCount(FinalEvents(front + [f])) == RejectCount(FinalEvents(front)) + if f.category != "" then 1 else 0
  {
    hide AcceptCount, RejectCount;
    var before := FinalEvents(front);
    assert (front + [f])[..|front|] == front;
    OneAssertion(f.record);
    OneRefusal(f.category, 0);
    CountsConcat(before, [Asserted(f.record)]);
    CountsConcat(before + [Asserted(f.record)], [Refused(f.category, 0)]);
    assert before + [Asserted(f.record)] + [] == before + [Asserted(f.record)];
  }

  lemma FinalsSplit(r: Rules, sightings: seq<Record>, keys: seq<string>, key: string, finals: seq<Final>, f: Final)
    requires forall k :: k in keys + [key] ==> k in KeysOf(sightings)
    requires |finals| == |keys| && AreFinals(r, sightings, keys + [key], finals + [f])
    ensures (forall k :: k in keys ==> k in KeysOf(sightings)) && key in KeysOf(sightings)
    ensures AreFinals(r, sightings, keys, finals) && IsFinal(r, sightings, key, f)
  {
    hide KeysOf, IsFinal;
    var allKeys, all := keys + [key], finals + [f];
    forall k | k in keys ensures k in KeysOf(sightings) { assert k in allKeys; }
    assert key in allKeys && allKeys[|keys|] == key && all[|keys|] == f;
    forall i | 0 <= i < |finals| ensures IsFinal(r, sightings, keys[i], finals[i]) {
      assert allKeys[i] == keys[i] && all[i] == finals[i];
    }
  }

  lemma {:induction false} FinalsCount(r: Rules, sightings: seq<Record>, keys: seq<string>, finals: seq<Final>)
    requires forall key :: key in keys ==> key in KeysOf(sightings)
    requires AreFinals(r, sightings, keys, finals)
    ensures AcceptCount(FinalEvents(finals)) == |keys|
    ensures RejectCount(FinalEvents(finals)) == UnresolvedCount(sightings, keys)
    decreases |keys|
  {
    hide KeysOf, IsFinal, UnresolvedKey, AreFinals;
    if keys == [] {
      FinalsLength(r, sightings, keys, finals);
    } else {
      var n := |keys| - 1;
      FinalsLength(r, sightings, keys, finals);
      var front, f := finals[..n], finals[n];
      assert keys == keys[..n] + [keys[n]] && finals == front + [f];
      FinalsSplit(r, sightings, keys[..n], keys[n], front, f);
      FinalsCount(r, sightings, keys[..n], front);
      FinalIsUnresolved(r, sightings, keys[n], f);
      OneMoreFinal(front, f);
    }
  }

  lemma FinalsLength(r: Rules, sightings: seq<Record>, keys: seq<string>, finals: seq<Final>)
    requires (forall key :: key in keys ==> key in KeysOf(sightings)) && AreFinals(r, sightings, keys, finals)
    ensures |finals| == |keys|
  {
  }

  /** A final record is also reported as a rejection exactly when its call is unresolved. */
  lemma FinalIsUnresolved(r: Rules, sightings: seq<Record>, key: string, f: Final)
    requires key in KeysOf(sightings) && IsFinal(r, sightings, key, f)
    ensures f.category != "" <==> UnresolvedKey(sightings, key)
  {
    hide CallsOf, KeysOf, OfKey, FactsOf, Summarises;
    var mine := OfKey(sightings, key);
    SightedKeyIsReconcilable(sightings, key);
    FoldSummarises(mine);
    KeysAreOutcomes(mine);
    SizeOne(CallsOf(mine).terminals.Keys);
    assert MISSING[0] == 'm' && CONTRADICTORY[0] == 'c';
  }

  lemma KeysAreOutcomes(records: seq<Record>)
    ensures CallsOf(records).terminals.Keys == Outcomes(FactsOf(records))
  {
    hide CallsOf, FactsOf, Outcomes;
    FoldSummarises(records);
  }

  lemma SizeOne(s: set<string>)
    ensures |s| == 1 <==> exists o :: s == {o}
    ensures |s| == 0 <==> s == {}
  {
    if |s| == 1 {
      var o :| o in s;
      assert |s - {o}| == 0;
      assert s == {o} + (s - {o});
    }
  }

  /** The books of a finished stream: accepted records are the immediate ones and one per distinct
      call; rejections are the rejected frames and the unresolved calls. */
  lemma StreamAccounting(r: Rules, history: seq<Frame>, lines: seq<Line>, finals: seq<Final>)
    requires var sightings := Sightings(r, history, lines); AreFinals(r, sightings, KeysOf(sightings), finals)
    ensures var sightings := Sightings(r, history, lines);
      var events := Emissions(r, history, lines) + FinalEvents(finals);
      && AcceptCount(events) == ImmediateRecords(r, history, lines) + |KeysOf(sightings)|
      && RejectCount(events) == RejectedFrames(r, history, lines) + UnresolvedCount(sightings, KeysOf(sightings))
  {
    hide Sightings, Emissions, FinalEvents, AreFinals, KeysOf;
    var sightings := Sightings(r, history, lines);
    EmissionsCount(r, history, lines);
    FinalsCount(r, sightings, KeysOf(sightings), finals);
    CountsConcat(Emissions(r, history, lines), FinalEvents(finals));
  }

  // ---------- verdicts do not see order or repetition ----------

  /** The call record a frame contributes, whatever came before it. */
  function CallOf(r: Rules, f: Frame, sequence: nat): Option<Record>
  {
    match f
    case ItemStarted(item) =>
      (var p := StartedProjection(r, item, sequence);
       if item.Some? && item.value.kind == "mcpToolCall" && p.Projected?
       then Some(CallStarted(r, item.value, sequence)) else None)
    case ItemCompleted(item) =>
      (var p := CompletedProjection(r, item, sequence);
       if item.Some? && item.value.kind == "mcpToolCall" && p.Projected?
       then Some(CallEnded(r, item.value, sequence)) else None)
    case _ => None
  }

  /** The fact a frame states about the call of a key, which no earlier frame and no position
      in the stream can change. */
  predicate StatesFact(r: Rules, f: Frame, key: string)
  {
    CallOf(r, f, 0).Some? && CallOf(r, f, 0).value.source == key
  }

  function FrameFacts(r: Rules, frames: set<Frame>, key: string): set<Fact>
  {
    set f | f in frames && StatesFact(r, f, key) :: FactOf(CallOf(r, f, 0).value)
  }

  function FrameSet(lines: seq<Line>): set<Frame>
  {
    set line | line in lines :: line.frame
  }

  lemma {:induction false} NoCallRecords(records: seq<Record>)
    requires forall record :: record in records ==> record.kind != "mcp"
    ensures CallRecords(records) == []
  {
    if records != [] {
      assert records[|records| - 1] in records;
      NoCallRecords(records[..|records| - 1]);
    }
  }

  lemma OneCallRecord(record: Record)
    ensures CallRecords([record]) == if IsCallRecord(record) then [record] else []
  {
    assert [record][..0] == [];
  }

  lemma {:induction false} UsesAreSkills(r: Rules, i: StartedItem, inputs: seq<Content>, sequence: nat)
    ensures forall record :: record in AllUses(r, i, inputs, sequence) ==> record.kind == "skill"
  {
    hide SourceKey, SkillOwner, Pseudonym;
    if inputs != [] { UsesAreSkills(r, i, inputs[..|inputs| - 1], sequence); }
  }

  lemma ItemCalls(r: Rules, pending: Pending, line: Line, sequence: nat)
    requires line.frame.ItemStarted? || line.frame.ItemCompleted?
    ensures CallsIn(FrameProjection(r, pending, line, sequence)) ==
      match CallOf(r, line.frame, sequence) case Some(record) => [record] case None => []
  {
    hide SafeRecord, SkillInputs, AllUses, ValidTool;
    var p := FrameProjection(r, pending, line, sequence);
    match line.frame {
      case ItemStarted(item) =>
        if p.Projected? && item.Some? {
          if item.value.kind == "mcpToolCall" {
            OneCallRecord(CallStarted(r, item.value, sequence));
            CallRecordShape(r, item.value, sequence);
          } else if item.value.kind == "userMessage" {
            UsesAreSkills(r, item.value, SkillInputs(item.value.content), sequence);
            NoCallRecords(p.records);
          }
        }
      case ItemCompleted(item) =>
        if p.Projected? && item.Some? && item.value.kind == "mcpToolCall" {
          OneCallRecord(CallEnded(r, item.value, sequence));
          EndRecordShape(r, item.value, sequence);
        }
    }
  }

  lemma CallRecordShape(r: Rules, i: StartedItem, sequence: nat)
    ensures IsCallRecord(CallStarted(r, i, sequence))
    ensures CallStarted(r, i, sequence).source == SourceKey(r, i.id)
    ensures FactOf(CallStarted(r, i, sequence)) == Started(i.at)
  {
    hide SourceKey, SkillOwner, Pseudonym;
  }

  lemma EndRecordShape(r: Rules, i: CompletedItem, sequence: nat)
    ensures IsCallRecord(CallEnded(r, i, sequence))
    ensures CallEnded(r, i, sequence).source == SourceKey(r, i.id)
    ensures FactOf(CallEnded(r, i, sequence)) == Ended(r.outcomeOf(i.status, i.resultError), i.at)
  {
    hide SourceKey, SkillOwner, Pseudonym;
    assert TERMINAL[14] == 't' && STARTED[14] == 's';
  }

  lemma ResponseRecordsAreNoCalls(r: Rules, pending: Pending, line: Line, sequence: nat)
    requires line.frame.Response? || line.frame.ThreadStarted? || line.frame.TurnStarted?
    ensures CallsIn(FrameProjection(r, pending, line, sequence)) == []
  {
    hide SkillsListProjection, ReadProjection, SafeRecord, CallRecords;
    var p := FrameProjection(r, pending, line, sequence);
    if p.Projected? {
      forall record | record in p.records ensures record.eventType != "tool.called" {
        if line.frame.Response? {
          if line.frame.id in pending && pending[line.frame.id] == SKILLS_LIST {
            ListEvents(r, line.day, line.frame.list, record);
          } else {
            ReadEvents(r, line.day, line.frame.plugin, record);
          }
        } else {
          NotificationEvents(r, line.frame, sequence, record);
        }
      }
      NoToolCalls(p.records);
    }
  }

  lemma {:induction false} NoToolCalls(records: seq<Record>)
    requires forall record :: record in records ==> record.eventType != "tool.called"
    ensures CallRecords(records) == []
  {
    if records != [] {
      assert records[|records| - 1] in records;
      NoToolCalls(records[..|records| - 1]);
    }
  }

  lemma NotificationEvents(r: Rules, f: Frame, sequence: nat, record: Record)
    requires f.ThreadStarted? || f.TurnStarted?
    requires var p := if f.ThreadStarted? then ThreadProjection(r, f.thread, sequence)
                      else TurnProjection(r, f.turn, sequence);
      p.Projected? && record in p.records
    ensures record.eventType != "tool.called"
  {
    hide SourceKey, SkillOwner, Pseudonym;
  }

  lemma ListEvents(r: Rules, day: int, data: Option<seq<seq<ListedSkill>>>, record: Record)
    requires SkillsListProjection(r, day, data).Projected? && record in SkillsListProjection(r, day, data).records
    ensures record.eventType != "tool.called"
  {
    hide EnabledSkills, Flatten, SourceKey, SkillOwner, Pseudonym;
    var enabled := EnabledSkills(Flatten(data.value));
    var i :| 0 <= i < |enabled| && Map(ExposedRecord(r, day), enabled)[i] == record;
  }

  lemma ReadEvents(r: Rules, day: int, body: Option<PluginBody>, record: Record)
    requires ReadProjection(r, day, body).Projected? && record in ReadProjection(r, day, body).records
    ensures record.eventType != "tool.called"
  {
    hide Children, Lifecycles;
    var b := body.value;
    if record !in PluginLifecycle(r, b, day) {
      LifecyclesMember(r, b, day, Children(r, b), record);
      var c :| c in Children(r, b) && record in ChildLifecycle(r, b, day, c);
      ChildEvents(r, b, day, c, record);
    } else {
      PluginEvents(r, b, day, record);
    }
  }

  lemma ChildEvents(r: Rules, b: PluginBody, day: int, c: Child, record: Record)
    requires record in ChildLifecycle(r, b, day, c)
    ensures record.eventType != "tool.called"
  {
    hide SourceKey, SkillOwner, Pseudonym, ChildIdentity, IdentityText, ChildObserved;
  }

  lemma PluginEvents(r: Rules, b: PluginBody, day: int, record: Record)
    requires record in PluginLifecycle(r, b, day)
    ensures record.eventType != "tool.called"
  {
    hide SourceKey, SkillOwner, Pseudonym, PluginIdentity;
  }

  /** The call records of a line depend on nothing but its frame and position. */
  lemma LineCalls(r: Rules, pending: Pending, line: Line, sequence: nat)
    ensures CallsIn(FrameProjection(r, pending, line, sequence)) ==
      match CallOf(r, line.frame, sequence) case Some(record) => [record] case None => []
  {
    hide StartedProjection, CompletedProjection, ThreadProjection, TurnProjection, ResponseProjection, CallRecords;
    if line.frame.ItemStarted? || line.frame.ItemCompleted? {
      ItemCalls(r, pending, line, sequence);
    } else if line.frame.Response? || line.frame.ThreadStarted? || line.frame.TurnStarted? {
      ResponseRecordsAreNoCalls(r, pending, line, sequence);
    } else {
      NoCallRecords([]);
    }
  }

  lemma PositionIsNoFact(r: Rules, f: Frame, sequence: nat)
    ensures CallOf(r, f, sequence).Some? <==> CallOf(r, f, 0).Some?
    ensures CallOf(r, f, 0).Some? ==> CallOf(r, f, sequence).value.source == CallOf(r, f, 0).value.source
    ensures CallOf(r, f, 0).Some? ==> FactOf(CallOf(r, f, sequence).value) == FactOf(CallOf(r, f, 0).value)
  {
    hide SafeRecord, SkillInputs, AllUses, ValidTool;
    match f {
      case ItemStarted(item) =>
        if item.Some? { CallRecordShape(r, item.value, sequence); CallRecordShape(r, item.value, 0); }
      case ItemCompleted(item) =>
        if item.Some? { EndRecordShape(r, item.value, sequence); EndRecordShape(r, item.value, 0); }
      case _ =>
    }
  }

  lemma SightingsSnoc(r: Rules, history: seq<Frame>, front: seq<Line>, last: Line)
    ensures Sightings(r, history, front + [last]) == Sightings(r, history, front)
      + match CallOf(r, last.frame, |front| + 1) case Some(record) => [record] case None => []
  {
    hide CallOf, CallsIn, FrameProjection, PendingOf;
    assert (front + [last])[..|front|] == front;
    LineCalls(r, PendingOf(r, history + Map(FrameOf(), front)), last, |front| + 1);
  }

  lemma OfKeySnoc(front: seq<Record>, last: Record, key: string)
    ensures OfKey(front + [last], key) == OfKey(front, key) + if last.source == key then [last] else []
  {
    assert (front + [last])[..|front|] == front;
  }

  /** The facts about a call are those its frames state, read as a set. */
  lemma {:induction false} SightedFacts(r: Rules, history: seq<Frame>, lines: seq<Line>, key: string)
    ensures FactsOf(OfKey(Sightings(r, history, lines), key)) == FrameFacts(r, FrameSet(lines), key)
  {
    hide CallOf, FactOf, FrameFacts, FactsOf, OfKey, FrameSet;
    if lines == [] {
      NoFacts(r, key);
    } else {
      var n := |lines| - 1;
      var front, last := lines[..n], lines[n];
      assert lines == front + [last];
      SightedFacts(r, history, front, key);
      OneMoreFact(r, history, front, last, key);
    }
  }

  lemma OneMoreFact(r: Rules, history: seq<Frame>, front: seq<Line>, last: Line, key: string)
    requires FactsOf(OfKey(Sightings(r, history, front), key)) == FrameFacts(r, FrameSet(front), key)
    ensures FactsOf(OfKey(Sightings(r, history, front + [last]), key)) == FrameFacts(r, FrameSet(front + [last]), key)
  {
    hide CallOf, FactOf, FrameFacts, FactsOf, OfKey, FrameSet, Sightings;
    var before := Sightings(r, history, front);
    FrameSetSnoc(front, last);
    FrameFactsGrow(r, FrameSet(front), last.frame, key);
    SightingsSnoc(r, history, front, last);
    PositionIsNoFact(r, last.frame, |front| + 1);
    match CallOf(r, last.frame, |front| + 1) {
      case None => assert before + [] == before;
      case Some(record) =>
        OfKeySnoc(before, record, key);
        if record.source == key {
          FactsSnoc(OfKey(before, key), record);
        } else {
          assert OfKey(before, key) + [] == OfKey(before, key);
        }
    }
  }

  lemma NoFacts(r: Rules, key: string)
    ensures FactsOf(OfKey([], key)) == {} && FrameFacts(r, FrameSet([]), key) == {}
  {
  }

  lemma FrameSetSnoc(front: seq<Line>, last: Line)
    ensures FrameSet(front + [last]) == FrameSet(front) + {last.frame}
  {
    forall f | f in FrameSet(front) + {last.frame} ensures f in FrameSet(front + [last]) {
      if f == last.frame {
        assert last in front + [last];
      } else {
        var line :| line in front && line.frame == f;
        assert line in front + [last];
      }
    }
  }

  lemma FrameFactsGrow(r: Rules, frames: set<Frame>, f: Frame, key: string)
    ensures FrameFacts(r, frames + {f}, key) ==
      FrameFacts(r, frames, key) + if StatesFact(r, f, key) then {FactOf(CallOf(r, f, 0).value)} else {}
  {
    hide CallOf, FactOf;
    forall fact | fact in FrameFacts(r, frames, key) ensures fact in FrameFacts(r, frames + {f}, key) {
      var g :| g in frames && StatesFact(r, g, key) && FactOf(CallOf(r, g, 0).value) == fact;
      assert g in frames + {f};
    }
    if StatesFact(r, f, key) { assert f in frames + {f}; }
  }

  lemma KeySighted(r: Rules, history: seq<Frame>, lines: seq<Line>, key: string)
    ensures key in KeysOf(Sightings(r, history, lines)) <==> FrameFacts(r, FrameSet(lines), key) != {}
  {
    hide KeysOf, OfKey, FrameFacts, FactsOf, Sightings;
    var sightings := Sightings(r, history, lines);
    SightedFacts(r, history, lines, key);
    KeysOfMembers(sightings);
    OfKeyMembers(sightings, key);
    FactsEmpty(OfKey(sightings, key));
    if key in KeysOf(sightings) {
      var record :| record in sightings && record.source == key;
      assert record in OfKey(sightings, key);
    }
    if OfKey(sightings, key) != [] {
      var record := OfKey(sightings, key)[0];
      assert record in OfKey(sightings, key);
    }
  }

  lemma FactsEmpty(records: seq<Record>)
    ensures FactsOf(records) == {} <==> records == []
  {
    if records != [] {
      assert records[0] in records;
      assert FactOf(records[0]) in FactsOf(records);
    }
  }

  /** Over any two streams with the same frames, in any order and with any repetitions, the same
      calls are reconciled and each call's outcome, key, time and category are the same. */
  lemma StreamVerdicts(r: Rules, h1: seq<Frame>, lines1: seq<Line>, h2: seq<Frame>, lines2: seq<Line>, key: string,
                       f1: Final, f2: Final)
    requires FrameSet(lines1) == FrameSet(lines2)
    requires key in KeysOf(Sightings(r, h1, lines1)) && IsFinal(r, Sightings(r, h1, lines1), key, f1)
    requires key in KeysOf(Sightings(r, h2, lines2)) ==> IsFinal(r, Sightings(r, h2, lines2), key, f2)
    ensures key in KeysOf(Sightings(r, h2, lines2))
    ensures VerdictOf(f1.record, f1.category) == VerdictOf(f2.record, f2.category)
    ensures IsVerdict(r, key, FrameFacts(r, FrameSet(lines1), key), VerdictOf(f1.record, f1.category))
  {
    hide KeysOf, OfKey, FrameFacts, FactsOf, Sightings, CallsOf, IsVerdict, IsReconciled, FrameSet;
    var s1, s2 := Sightings(r, h1, lines1), Sightings(r, h2, lines2);
    KeySighted(r, h1, lines1, key);
    KeySighted(r, h2, lines2, key);
    SightedFacts(r, h1, lines1, key);
    SightedFacts(r, h2, lines2, key);
    SightedKeyIsReconcilable(s1, key);
    SightedKeyIsReconcilable(s2, key);
    ReconciledIsVerdict(r, key, OfKey(s1, key), f1.record, f1.category);
    VerdictIgnoresReplays(r, key, OfKey(s1, key), OfKey(s2, key), f1.record, f1.category, f2.record, f2.category);
  }

  /** Reconciled records of different calls never share an idempotency key. */
  lemma FinalKeysDiffer(r: Rules, sightings: seq<Record>, k1: string, k2: string, f1: Final, f2: Final)
    requires Keyed(r) && k1 in KeysOf(sightings) && k2 in KeysOf(sightings) && k1 != k2
    requires IsFinal(r, sightings, k1, f1) && IsFinal(r, sightings, k2, f2)
    ensures f1.record.idempotencyKey != f2.record.idempotencyKey
  {
    hide KeysOf, OfKey, CallsOf, VerdictKey, Keyed, IsReconciled;
    SightedKeyIsReconcilable(sightings, k1);
    SightedKeyIsReconcilable(sightings, k2);
    var w1 := KeyedBy(r, k1, CallsOf(OfKey(sightings, k1)), f1);
    var w2 := KeyedBy(r, k2, CallsOf(OfKey(sightings, k2)), f2);
    if f1.record.idempotencyKey == f2.record.idempotencyKey {
      SameVerdictKey(r, k1, w1, k2, w2);
    }
  }

  lemma KeyedBy(r: Rules, key: string, c: Calls, f: Final) returns (what: string)
    requires c.started.Some? || c.terminals != map[]
    requires IsReconciled(r, key, c, f.record, f.category)
    ensures f.record.idempotencyKey == VerdictKey(r, key, what)
  {
    hide VerdictKey;
    if c.terminals == map[] {
      what := MISSING;
    } else if exists o :: c.terminals.Keys == {o} {
      var o :| c.terminals.Keys == {o} && f.record == c.terminals[o].(idempotencyKey := VerdictKey(r, key, o));
      what := o;
    } else {
      what := CONTRADICTORY;
    }
  }

  lemma SameVerdictKey(r: Rules, k1: string, w1: string, k2: string, w2: string)
    requires Keyed(r) && VerdictKey(r, k1, w1) == VerdictKey(r, k2, w2)
    ensures k1 == k2 && w1 == w2
  {
    hide Pseudonym;
    PseudonymInjective(r, "terminal-reconciliation/1", [k1, w1], "terminal-reconciliation/1", [k2, w2]);
    assert [k1, w1][0] == [k2, w2][0] && [k1, w1][1] == [k2, w2][1];
  }

  function ItemId(f: Frame): string
  {
    match f
    case ItemStarted(item) => if item.Some? then item.value.id else ""
    case ItemCompleted(item) => if item.Some? then item.value.id else ""
    case _ => ""
  }

  /** Sightings are taken for one call exactly when their item ids agree: neither the thread nor
      the turn separates two calls. */
  lemma OneCallPerItemId(r: Rules, f: Frame, g: Frame, i: nat, j: nat)
    requires Keyed(r) && CallOf(r, f, i).Some? && CallOf(r, g, j).Some?
    ensures CallOf(r, f, i).value.source == CallOf(r, g, j).value.source <==> ItemId(f) == ItemId(g)
  {
    hide StartedProjection, CompletedProjection, SourceKey, Keyed, CallStarted, CallEnded;
    CallSource(r, f, i);
    CallSource(r, g, j);
    if SourceKey(r, ItemId(f)) == SourceKey(r, ItemId(g)) { SameSource(r, ItemId(f), ItemId(g)); }
  }

  lemma CallSource(r: Rules, f: Frame, i: nat)
    requires CallOf(r, f, i).Some?
    ensures CallOf(r, f, i).value.source == SourceKey(r, ItemId(f))
  {
    hide StartedProjection, CompletedProjection, CallStarted, CallEnded;
    match f {
      case ItemStarted(item) => CallRecordShape(r, item.value, i);
      case ItemCompleted(item) => EndRecordShape(r, item.value, i);
    }
  }

  lemma SameSource(r: Rules, a: string, b: string)
    requires Keyed(r) && SourceKey(r, a) == SourceKey(r, b)
    ensures a == b
  {
    hide Pseudonym;
    PseudonymInjective(r, "source-record/1", [ADAPTER, a], "source-record/1", [ADAPTER, b]);
    assert [ADAPTER, a][1] == [ADAPTER, b][1];
  }
}
