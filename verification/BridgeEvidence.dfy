/** What the bridge's records say, field by field, about the frames they were made from: which session
    and turn, which tool or component, what happened and when. */
module BridgeEvidence {
  import opened Ordering
  import opened BridgeRecords
  import opened BridgeProjections
  import opened BridgeFrames
  import opened BridgeRuns
  import opened TerminalCalls

  // ---------- session and turn ----------

  /** The session and turn a notification names; a thread has no turn yet. */
  datatype Site = Site(session: string, turn: string)

  function SiteOf(f: Frame): Option<Site>
  {
    match f
    case ThreadStarted(Some(t)) => Some(Site(t.session, ""))
    case TurnStarted(Some(t)) => Some(Site(t.thread, t.id))
    case ItemStarted(Some(i)) => Some(Site(i.thread, i.turn))
    case ItemCompleted(Some(i)) => Some(Site(i.thread, i.turn))
    case _ => None
  }

  /** Milliseconds; threads and turns state seconds. */
  function MillisecondsOf(f: Frame): int
  {
    match f
    case ThreadStarted(Some(t)) => 1000 * t.createdAt
    case TurnStarted(Some(t)) => if t.startedAt.Some? then 1000 * t.startedAt.value else 0
    case ItemStarted(Some(i)) => i.at
    case ItemCompleted(Some(i)) => i.at
    case _ => 0
  }

  predicate Placed(r: Rules, record: Record, site: Site)
  {
    && record.session == "hmac-sha256:" + r.hmac("session/1", ["codex", site.session])
    && record.turn ==
       (if site.turn == "" then "" else "hmac-sha256:" + r.hmac("turn/1", ["codex", site.session, site.turn]))
  }

  /** The identifiers a record carries: those of its source under the session, and, until a verdict
      replaces it, the key of this one sighting. */
  predicate Keys(r: Rules, record: Record, nativeId: string, session: string)
  {
    && record.source == "hmac-sha256:" + r.hmac("source-record/1", ["codex", nativeId])
    && record.recordId == "hmac-sha256:" + r.hmac("record/1", ["codex", session, nativeId, "0"])
  }

  predicate SightedAs(r: Rules, record: Record, nativeId: string, sequence: nat)
  {
    record.idempotencyKey ==
      "hmac-sha256:"
      + r.hmac("idempotency/1",
               ["codex", "evidence_bridge", nativeId, r.timeText(record.observedAt), r.numeral(sequence)])
  }

  // ---------- what happened ----------

  predicate Unnamed(record: Record)
  {
    record.kind == record.tool == record.identity == record.owner == "" && record.outcome == "unknown"
  }

  predicate CallOn(record: Record, server: string, tool: string)
  {
    && record.eventType == "tool.called" && record.kind == "mcp" && record.owner == ""
    && record.tool == record.identity == "mcp:" + server + "/" + tool
  }

  /** A use of the skill, owned by the plugin its qualified name starts with. */
  predicate UseOf(record: Record, skill: string)
  {
    && record.eventType in {"component.invoked", "component.loaded"} && record.kind == "skill"
    && record.tool == record.identity == skill && record.outcome == "unknown"
    && record.owner == SkillOwner("skill", skill)
  }

  /** The native identifier of a use: the item, the skill, and which of the two events it is. */
  function UseId(item: string, skill: string, event: string): string
  {
    item + ":skill:" + skill + (if event == "component.invoked" then ":invoked" else ":loaded")
  }

  predicate Tells(r: Rules, f: Frame, record: Record)
  {
    match f
    case ThreadStarted(Some(t)) =>
      record.eventType == "session.started" && Unnamed(record) && Keys(r, record, t.id, t.session)
    case TurnStarted(Some(t)) =>
      record.eventType == "prompt.submitted" && Unnamed(record) && Keys(r, record, t.id, t.thread)
    case ItemStarted(Some(i)) =>
      if i.kind == "mcpToolCall" then
        && CallOn(record, i.server, i.tool) && record.outcome == "unknown" && record.duration == None
        && Keys(r, record, i.id, i.thread)
      else exists c :: c in i.content && c.kind == "skill" && UsedIn(r, i, c.name, record)
    case ItemCompleted(Some(i)) =>
      && CallOn(record, i.server, i.tool) && Keys(r, record, i.id, i.thread)
      && record.outcome == r.outcomeOf(i.status, i.resultError) && record.duration == i.duration
    case _ => false
  }

  predicate UsedIn(r: Rules, i: StartedItem, skill: string, record: Record)
  {
    UseOf(record, skill) && Keys(r, record, UseId(i.id, skill, record.eventType), i.thread)
  }

  lemma MadeRecord(r: Rules, nativeId: string, session: string, turn: string, event: string, outcome: string,
                   tool: string, kind: string, at: int, sequence: nat)
    ensures var record := SafeRecord(r, nativeId, session, turn, event, outcome, tool, kind, at, sequence);
      && Placed(r, record, Site(session, turn)) && record.observedAt == at
      && record.eventType == event && record.outcome == outcome && record.kind == kind && record.duration == None
      && record.tool == record.identity == tool && record.owner == SkillOwner(kind, tool)
      && Keys(r, record, nativeId, session) && SightedAs(r, record, nativeId, sequence)
  {
  }

  /** A skill's owner is what stands before the last colon of its name, if anything does. */
  lemma OwnerIsBeforeLastColon(skill: string)
    ensures var owner := SkillOwner("skill", skill);
      if owner == "" then forall i :: 0 < i < |skill| ==> skill[i] != ':'
      else owner + ":" <= skill && ':' !in skill[|owner| + 1..]
  {
    LastColonSplits(skill);
  }

  lemma {:induction false} LastColonSplits(s: string)
    ensures LastColon(s) >= 0 ==> s[..LastColon(s)] + ":" <= s
    ensures forall i :: LastColon(s) < i < |s| ==> s[i] != ':'
  {
    if s != [] {
      var n := |s| - 1;
      assert s == s[..n] + [s[n]];
      LastColonSplits(s[..n]);
      var i := LastColon(s);
      if i >= 0 {
        assert s[..i] + ":" == s[..i + 1];
        if s[n] != ':' { assert s[..n][..i] == s[..i]; }
      }
    }
  }

  /** Every record of a notification carries its session, turn and time and tells what it states. */
  lemma NotificationRecord(r: Rules, pending: Pending, line: Line, sequence: nat, record: Record)
    requires !line.frame.Response?
    requires var p := FrameProjection(r, pending, line, sequence); p.Projected? && record in p.records
    ensures SiteOf(line.frame).Some? && Placed(r, record, SiteOf(line.frame).value)
    ensures record.observedAt == MillisecondsOf(line.frame) && Tells(r, line.frame, record)
    ensures SiteOf(line.frame).value.session != ""
    ensures (line.frame.ThreadStarted? <==> SiteOf(line.frame).value.turn == "")
  {
    hide SafeRecord, Placed, CallOn, UseOf, Tells, MessageProjection;
    match line.frame {
      case ThreadStarted(thread) => ThreadRecord(r, thread, sequence, record);
      case TurnStarted(turn) => TurnRecord(r, turn, sequence, record);
      case ItemStarted(item) => StartedRecord(r, item, sequence, record);
      case ItemCompleted(item) => CompletedRecord(r, item, sequence, record);
      case _ =>
    }
  }

  lemma ThreadRecord(r: Rules, thread: Option<Thread>, sequence: nat, record: Record)
    requires ThreadProjection(r, thread, sequence).Projected? && record in ThreadProjection(r, thread, sequence).records
    ensures thread.Some? && thread.value.session != ""
    ensures Placed(r, record, Site(thread.value.session, "")) && record.observedAt == 1000 * thread.value.createdAt
    ensures Tells(r, ThreadStarted(thread), record)
  {
    hide SafeRecord, Placed, Keys;
    var t := thread.value;
    MadeRecord(r, t.id, t.session, "", "session.started", "unknown", "", "", t.createdAt * 1000, sequence);
  }

  lemma TurnRecord(r: Rules, turn: Option<Turn>, sequence: nat, record: Record)
    requires TurnProjection(r, turn, sequence).Projected? && record in TurnProjection(r, turn, sequence).records
    ensures turn.Some? && turn.value.thread != "" && turn.value.id != "" && turn.value.startedAt.Some?
    ensures Placed(r, record, Site(turn.value.thread, turn.value.id))
    ensures record.observedAt == 1000 * turn.value.startedAt.value && Tells(r, TurnStarted(turn), record)
  {
    hide SafeRecord, Placed, Keys;
    var t := turn.value;
    MadeRecord(r, t.id, t.thread, t.id, "prompt.submitted", "unknown", "", "", t.startedAt.value * 1000, sequence);
  }

  lemma StartedRecord(r: Rules, item: Option<StartedItem>, sequence: nat, record: Record)
    requires StartedProjection(r, item, sequence).Projected? && record in StartedProjection(r, item, sequence).records
    ensures item.Some? && item.value.thread != "" && item.value.turn != ""
    ensures Placed(r, record, Site(item.value.thread, item.value.turn)) && record.observedAt == item.value.at
    ensures Tells(r, ItemStarted(item), record)
  {
    hide SafeRecord, Placed, Keys, AllUses, SkillInputs, UseOf;
    var i := item.value;
    if i.kind == "mcpToolCall" {
      var tool := ToolIdentity(i.server, i.tool);
      var made := SafeRecord(r, i.id, i.thread, i.turn, "tool.called", "unknown", tool, "mcp", i.at, sequence);
      MadeRecord(r, i.id, i.thread, i.turn, "tool.called", "unknown", tool, "mcp", i.at, sequence);
      assert record == CallStarted(r, i, sequence);
      SamePlace(r, record, made);
    } else {
      var c := UseRecord(r, i, SkillInputs(i.content), sequence, record);
      InputMember(i.content, c);
    }
  }

  /** What is read off the identifiers of a record survives changing its other fields. */
  lemma SamePlace(r: Rules, x: Record, y: Record)
    requires x.session == y.session && x.turn == y.turn && x.source == y.source && x.recordId == y.recordId
    ensures forall site :: Placed(r, x, site) <==> Placed(r, y, site)
    ensures forall nativeId, session :: Keys(r, x, nativeId, session) <==> Keys(r, y, nativeId, session)
  {
  }

  lemma {:induction false} InputMember(content: seq<Content>, c: Content)
    ensures c in SkillInputs(content) <==> c in content && c.kind == "skill"
  {
    if content != [] {
      var n := |content| - 1;
      assert content == content[..n] + [content[n]];
      InputMember(content[..n], c);
    }
  }

  lemma {:induction false} UseRecord(r: Rules, i: StartedItem, inputs: seq<Content>, sequence: nat, record: Record)
      returns (c: Content)
    requires record in AllUses(r, i, inputs, sequence)
    ensures c in inputs && UsedIn(r, i, c.name, record)
    ensures Placed(r, record, Site(i.thread, i.turn)) && record.observedAt == i.at
  {
    hide SafeRecord, Placed, Keys, SkillOwner;
    var n := |inputs| - 1;
    if record in AllUses(r, i, inputs[..n], sequence) {
      c := UseRecord(r, i, inputs[..n], sequence, record);
    } else {
      c := inputs[n];
      var nativeId := i.id + ":skill:" + c.name;
      var invoked, loaded := nativeId + ":invoked", nativeId + ":loaded";
      MadeRecord(r, invoked, i.thread, i.turn, "component.invoked", "unknown", c.name, "skill", i.at, sequence);
      MadeRecord(r, loaded, i.thread, i.turn, "component.loaded", "unknown", c.name, "skill", i.at, sequence);
    }
  }

  lemma CompletedRecord(r: Rules, item: Option<CompletedItem>, sequence: nat, record: Record)
    requires CompletedProjection(r, item, sequence).Projected?
    requires record in CompletedProjection(r, item, sequence).records
    ensures item.Some? && item.value.thread != "" && item.value.turn != ""
    ensures Placed(r, record, Site(item.value.thread, item.value.turn)) && record.observedAt == item.value.at
    ensures Tells(r, ItemCompleted(item), record)
  {
    hide SafeRecord, Placed, Keys;
    var i := item.value;
    var made := SafeRecord(r, i.id, i.thread, i.turn, "tool.called", r.outcomeOf(i.status, i.resultError),
                           ToolIdentity(i.server, i.tool), "mcp", i.at, sequence);
    MadeRecord(r, i.id, i.thread, i.turn, "tool.called", r.outcomeOf(i.status, i.resultError),
               ToolIdentity(i.server, i.tool), "mcp", i.at, sequence);
    assert record == CallEnded(r, i, sequence);
    SamePlace(r, record, made);
  }

  // ---------- which records share a session or a turn ----------

  lemma SitesAgree(r: Rules, x: Record, a: Site, y: Record, b: Site)
    requires Keyed(r) && Placed(r, x, a) && Placed(r, y, b)
    ensures x.session == y.session <==> a.session == b.session
    ensures x.turn == y.turn <==> (a == b || (a.turn == "" && b.turn == ""))
  {
    var p, q := ["codex", a.session], ["codex", b.session];
    var u, v := ["codex", a.session, a.turn], ["codex", b.session, b.turn];
    if x.session == y.session { PseudonymInjective(r, "session/1", p, "session/1", q); assert p[1] == q[1]; }
    if x.turn == y.turn && a.turn != "" && b.turn != "" {
      PseudonymInjective(r, "turn/1", u, "turn/1", v);
      assert u[1] == v[1] && u[2] == v[2];
    }
  }

  /** Records of any two notifications, of one stream or of two, share a session exactly when the
      notifications do, and a turn exactly when they share session and turn. */
  lemma SameSessionIff(r: Rules, p1: Pending, l1: Line, n1: nat, x: Record, p2: Pending, l2: Line, n2: nat, y: Record)
    requires Keyed(r) && !l1.frame.Response? && !l2.frame.Response?
    requires FrameProjection(r, p1, l1, n1).Projected? && x in FrameProjection(r, p1, l1, n1).records
    requires FrameProjection(r, p2, l2, n2).Projected? && y in FrameProjection(r, p2, l2, n2).records
    ensures SiteOf(l1.frame).Some? && SiteOf(l2.frame).Some?
    ensures x.session == y.session <==> SiteOf(l1.frame).value.session == SiteOf(l2.frame).value.session
    ensures !l1.frame.ThreadStarted? ==> (x.turn == y.turn <==> SiteOf(l1.frame) == SiteOf(l2.frame))
  {
    hide FrameProjection, Placed, Tells, Keyed;
    NotificationRecord(r, p1, l1, n1, x);
    NotificationRecord(r, p2, l2, n2, y);
    SitesAgree(r, x, SiteOf(l1.frame).value, y, SiteOf(l2.frame).value);
  }

  // ---------- which notifications are recorded ----------

  ghost predicate Recorded(r: Rules, records: seq<Record>, i: StartedItem, skill: string, event: string)
  {
    exists record :: record in records && record.eventType == event && UsedIn(r, i, skill, record)
  }

  ghost predicate BothRecorded(r: Rules, records: seq<Record>, i: StartedItem, skill: string)
  {
    Recorded(r, records, i, skill, "component.invoked") && Recorded(r, records, i, skill, "component.loaded")
  }

  lemma RecordedInMore(r: Rules, some: seq<Record>, more: seq<Record>, i: StartedItem, skill: string)
    requires BothRecorded(r, some, i, skill)
    ensures BothRecorded(r, some + more, i, skill)
  {
    hide UsedIn;
    forall event | Recorded(r, some, i, skill, event) ensures Recorded(r, some + more, i, skill, event) {
      var record :| record in some && record.eventType == event && UsedIn(r, i, skill, record);
      assert record in some + more;
    }
  }

  lemma {:induction false} UseIsRecorded(r: Rules, i: StartedItem, inputs: seq<Content>, sequence: nat, c: Content)
    requires c in inputs
    ensures BothRecorded(r, AllUses(r, i, inputs, sequence), i, c.name)
  {
    hide SafeRecord, Keys, SkillOwner, Placed, BothRecorded, UseRecords;
    var n := |inputs| - 1;
    assert inputs == inputs[..n] + [inputs[n]];
    if c in inputs[..n] {
      UseIsRecorded(r, i, inputs[..n], sequence, c);
      RecordedInMore(r, AllUses(r, i, inputs[..n], sequence), UseRecords(r, i, inputs[n], sequence), i, c.name);
    } else {
      UseHasBoth(r, i, c, sequence, AllUses(r, i, inputs[..n], sequence));
    }
  }

  lemma UseHasBoth(r: Rules, i: StartedItem, c: Content, sequence: nat, before: seq<Record>)
    ensures BothRecorded(r, before + UseRecords(r, i, c, sequence), i, c.name)
  {
    hide SafeRecord, Keys, SkillOwner, Placed;
    var uses, nativeId := UseRecords(r, i, c, sequence), i.id + ":skill:" + c.name;
    var invoked, loaded := nativeId + ":invoked", nativeId + ":loaded";
    MadeRecord(r, invoked, i.thread, i.turn, "component.invoked", "unknown", c.name, "skill", i.at, sequence);
    MadeRecord(r, loaded, i.thread, i.turn, "component.loaded", "unknown", c.name, "skill", i.at, sequence);
    assert uses[0] in before + uses && uses[1] in before + uses;
    assert UsedIn(r, i, c.name, uses[0]) && UsedIn(r, i, c.name, uses[1]);
  }

  lemma {:induction false} UsesCount(r: Rules, i: StartedItem, inputs: seq<Content>, sequence: nat)
    ensures |AllUses(r, i, inputs, sequence)| == 2 * |inputs|
  {
    hide SafeRecord;
    if inputs != [] { UsesCount(r, i, inputs[..|inputs| - 1], sequence); }
  }

  predicate Tooled(server: string, tool: string)
  {
    server != "" && tool != "" && |server| + |tool| <= 120
  }

  /** The skills a message uses: every one is named and has a path, and they are at most sixteen. */
  predicate UsableSkills(r: Rules, content: seq<Content>)
  {
    |SkillInputs(content)| <= 16
    && forall c :: c in content && c.kind == "skill" ==> r.skillName(c.name) && c.path != ""
  }

  /** A notification states everything its records need. */
  predicate Stated(r: Rules, f: Frame)
  {
    match f
    case ThreadStarted(Some(t)) => t.id != "" && t.session != "" && t.cliVersion == "0.145.0" && t.createdAt > 0
    case TurnStarted(Some(t)) => t.thread != "" && t.id != "" && t.startedAt.Some?
    case ItemStarted(Some(i)) =>
      && i.thread != "" && i.turn != "" && i.id != "" && i.at > 0
      && (i.kind == "mcpToolCall" ==> Tooled(i.server, i.tool))
      && (i.kind == "userMessage" ==> UsableSkills(r, i.content))
    case ItemCompleted(Some(i)) =>
      i.kind == "mcpToolCall" ==>
        i.thread != "" && i.turn != "" && i.id != "" && i.at > 0 && Tooled(i.server, i.tool)
    case ItemCompleted(None) => true
    case Unowned => true
    case _ => false
  }

  predicate Notification(f: Frame)
  {
    f.ThreadStarted? || f.TurnStarted? || f.ItemStarted? || f.ItemCompleted?
  }

  function RecordsStated(f: Frame): nat
  {
    match f
    case ThreadStarted(_) => 1
    case TurnStarted(_) => 1
    case ItemStarted(Some(i)) =>
      if i.kind == "mcpToolCall" then 1 else if i.kind == "userMessage" then 2 * |SkillInputs(i.content)| else 0
    case ItemCompleted(Some(i)) => if i.kind == "mcpToolCall" then 1 else 0
    case _ => 0
  }

  /** A notification is projected exactly when it states everything, and then to as many records as it
      calls for: one per thread, turn and tool call, two per skill a message uses, both named. */
  lemma ProjectedIffStated(r: Rules, pending: Pending, line: Line, sequence: nat)
    requires Notification(line.frame)
    ensures var p := FrameProjection(r, pending, line, sequence);
      && (p.Projected? <==> Stated(r, line.frame))
      && (p.Projected? ==> |p.records| == RecordsStated(line.frame))
    ensures var p := FrameProjection(r, pending, line, sequence);
      p.Projected? && line.frame.ItemStarted? && line.frame.started.value.kind == "userMessage" ==>
        forall c :: c in line.frame.started.value.content && c.kind == "skill" ==>
          BothRecorded(r, p.records, line.frame.started.value, c.name)
  {
    hide SafeRecord, BothRecorded, MessageProjection, UsableSkills, SkillInputs, CallStarted, CallEnded;
    match line.frame {
      case ThreadStarted(_) =>
      case TurnStarted(_) =>
      case ItemStarted(Some(i)) => MessageStated(r, i, sequence);
      case ItemStarted(None) =>
      case ItemCompleted(_) =>
    }
  }

  lemma MessageStated(r: Rules, i: StartedItem, sequence: nat)
    ensures var p := MessageProjection(r, i, sequence);
      && (p.Projected? <==> UsableSkills(r, i.content))
      && (p.Projected? ==> |p.records| == 2 * |SkillInputs(i.content)|)
      && (p.Projected? ==> forall c :: c in i.content && c.kind == "skill" ==> BothRecorded(r, p.records, i, c.name))
  {
    hide AllUses, SkillInputs, BothRecorded;
    var inputs := SkillInputs(i.content);
    forall c ensures c in inputs <==> c in i.content && c.kind == "skill" { InputMember(i.content, c); }
    UsesCount(r, i, inputs, sequence);
    forall c | c in inputs ensures BothRecorded(r, AllUses(r, i, inputs, sequence), i, c.name) {
      UseIsRecorded(r, i, inputs, sequence, c);
    }
    if |inputs| <= 16 {
      assert First(MAX_SKILL_INPUTS + 1, inputs) == inputs;
      if forall c :: c in inputs ==> ValidInput(r, c) {
        forall c | c in i.content && c.kind == "skill" ensures r.skillName(c.name) && c.path != "" {
          InputMember(i.content, c);
          assert ValidInput(r, c);
        }
      }
    }
  }

  predicate AllUsable(r: Rules, inputs: seq<Content>)
  {
    forall c :: c in inputs ==> r.skillName(c.name) && c.path != ""
  }

  lemma UsableInputs(r: Rules, inputs: seq<Content>)
    ensures AllUsable(r, inputs) <==> !exists c :: c in inputs && !ValidInput(r, c)
  {
    if !exists c :: c in inputs && !ValidInput(r, c) {
      forall c | c in inputs ensures r.skillName(c.name) && c.path != "" { assert ValidInput(r, c); }
    }
  }

  /** A request is turned away exactly when it does not say what it must or 128 are unanswered, and a taken
      one has no records of its own. */
  lemma RequestTaken(r: Rules, pending: Pending, line: Line, sequence: nat)
    ensures line.frame.SkillsListRequest? ==>
      (var p := FrameProjection(r, pending, line, sequence);
       p == Projected([]) <==> line.frame.id != "" && line.frame.hasParams && |pending| < 128)
    ensures line.frame.PluginReadRequest? ==>
      (var p := FrameProjection(r, pending, line, sequence);
       p == Projected([]) <==>
         && line.frame.id != "" && line.frame.pluginName.Some? && r.identityPart(line.frame.pluginName.value)
         && |pending| < 128)
  {
  }

  /** Which request an id stands for: what the frame itself asks. */
  lemma AskedMeans(r: Rules, f: Frame, id: string, name: string)
    ensures Asks(r, f) == Some((id, name)) <==>
      || (f.SkillsListRequest? && f.id == id && id != "" && f.hasParams && name == "skills/list")
      || (f.PluginReadRequest? && f.id == id && id != "" && f.pluginName.Some? && r.identityPart(f.pluginName.value)
          && name == "plugin/read")
  {
  }

  /** Why a frame is rejected, in the words the sink is given. */
  lemma RejectionNamed(r: Rules, pending: Pending, line: Line, sequence: nat)
    requires FrameProjection(r, pending, line, sequence).Rejected?
    ensures var category := FrameProjection(r, pending, line, sequence).category;
      match line.frame
      case Undecodable => category == "unknown_or_invalid_frame_schema"
      case TrailingJson => category == "trailing_frame_json"
      case ThreadStarted(_) => category == "invalid_thread_started"
      case TurnStarted(_) => category == "invalid_turn_started"
      case ItemStarted(None) => category == "invalid_item_started"
      case ItemStarted(Some(i)) =>
        if i.thread == "" || i.turn == "" || i.id == "" || i.at <= 0 then category == "invalid_item_started"
        else if i.kind == "mcpToolCall" then category == "invalid_mcp_item_started"
        else category == if AllUsable(r, First(17, SkillInputs(i.content))) then "skill_input_limit_exceeded"
                         else "invalid_skill_input"
      case ItemCompleted(_) => category == "invalid_mcp_item_completed"
      case SkillsListRequest(id, hasParams) =>
        category == if id == "" || !hasParams then "invalid_skills_list_request"
                    else "pending_request_limit_exceeded"
      case PluginReadRequest(id, pluginName) =>
        category == if id == "" || pluginName.None? || !r.identityPart(pluginName.value)
                    then "invalid_plugin_read_request"
                    else "pending_request_limit_exceeded"
      case Response(id, failed, _, _) =>
        && id in pending
        && category in (if pending[id] == "skills/list" then
            (if failed then {"skills_list_response_error"}
             else {"invalid_skills_list_response", "skills_list_limit_exceeded"})
          else
            (if failed then {"plugin_read_response_error"}
             else {"invalid_plugin_read_response", "plugin_read_response_limit_exceeded"}))
      case Unowned => false
  {
    hide SafeRecord, AllUses, SkillInputs, AllRecords, EnabledSkills, Flatten, ExposedRecord, CallStarted, CallEnded;
    hide AllUsable;
    match line.frame {
      case ItemStarted(Some(i)) => UsableInputs(r, First(17, SkillInputs(i.content)));
      case Response(_, _, list, plugin) =>
      case _ =>
    }
  }

  // ---------- what the sink is told while the stream is read ----------

  lemma {:induction false} ImmediateMember(records: seq<Record>, e: Event)
    ensures e in Immediate(records) <==> e.Asserted? && e.record in records && !IsCallRecord(e.record)
  {
    if records != [] {
      var n := |records| - 1;
      assert records == records[..n] + [records[n]];
      ImmediateMember(records[..n], e);
    }
  }

  lemma {:induction false} CallRecordsMember(records: seq<Record>, record: Record)
    ensures record in CallRecords(records) <==> record in records && IsCallRecord(record)
  {
    if records != [] {
      var n := |records| - 1;
      assert records == records[..n] + [records[n]];
      CallRecordsMember(records[..n], record);
    }
  }

  /** Line k of the stream as the bridge sees it. */
  function ProjectionAt(r: Rules, history: seq<Frame>, lines: seq<Line>, k: nat): Projection
    requires k < |lines|
  {
    NextProjection(r, history, lines[..k], lines[k])
  }

  /** The line accounts for the event: a record it was projected to that is no tool call, or its
      rejection with its length. */
  predicate Causes(r: Rules, history: seq<Frame>, lines: seq<Line>, k: nat, e: Event)
    requires k < |lines|
  {
    match ProjectionAt(r, history, lines, k)
    case Rejected(category) => e == Refused(category, lines[k].bytes)
    case Projected(records) =>
      e.Asserted? && e.record in records && !(e.record.eventType == "tool.called" && e.record.kind == "mcp")
  }

  /** The sink is told while reading exactly what some line accounts for. */
  lemma {:induction false} EmissionsMember(r: Rules, history: seq<Frame>, lines: seq<Line>, e: Event)
    ensures e in Emissions(r, history, lines) <==> exists k :: 0 <= k < |lines| && Causes(r, history, lines, k, e)
  {
    hide NextProjection, Immediate;
    if lines != [] {
      var n := |lines| - 1;
      var front := lines[..n];
      EmissionsMember(r, history, front, e);
      assert forall k :: 0 <= k < n ==> front[..k] == lines[..k] && front[k] == lines[k];
      match NextProjection(r, history, front, lines[n]) {
        case Rejected(_) =>
        case Projected(records) => ImmediateMember(records, e);
      }
      assert e in EventsOf(NextProjection(r, history, front, lines[n]), lines[n]) <==> Causes(r, history, lines, n, e);
      forall k | 0 <= k < n ensures Causes(r, history, front, k, e) <==> Causes(r, history, lines, k, e) {
        assert front[..k] == lines[..k];
      }
    }
  }

  // ---------- what is told of a call at the end ----------

  /** One sighting of a tool call, in the terms of its frame. */
  datatype Sighting = Sighting(site: Site, item: string, server: string, tool: string, at: int, outcome: string,
                               duration: Option<int>, ended: bool)

  /** The tool call a complete notification is about. */
  function SightingOf(r: Rules, f: Frame): Option<Sighting>
  {
    match f
    case ItemStarted(Some(i)) =>
      if i.kind == "mcpToolCall" && Stated(r, f) then
        Some(Sighting(Site(i.thread, i.turn), i.id, i.server, i.tool, i.at, "unknown", None, false))
      else None
    case ItemCompleted(Some(i)) =>
      if i.kind == "mcpToolCall" && Stated(r, f) then
        Some(Sighting(Site(i.thread, i.turn), i.id, i.server, i.tool, i.at, r.outcomeOf(i.status, i.resultError),
                      i.duration, true))
      else None
    case _ => None
  }

  predicate Shows(r: Rules, record: Record, s: Sighting)
  {
    && CallOn(record, s.server, s.tool) && Placed(r, record, s.site) && Keys(r, record, s.item, s.site.session)
    && record.observedAt == s.at
    && record.identitySource == (if s.ended then "native_bridge_terminal" else "native_bridge_started")
  }

  lemma CallShows(r: Rules, f: Frame, sequence: nat)
    ensures CallOf(r, f, sequence).Some? <==> SightingOf(r, f).Some?
    ensures SightingOf(r, f).Some? ==>
      var record, s := CallOf(r, f, sequence).value, SightingOf(r, f).value;
      Shows(r, record, s) && record.outcome == s.outcome && record.duration == s.duration
  {
    hide SafeRecord, Placed, Keys, UsableSkills, MessageProjection;
    match f {
      case ItemStarted(Some(i)) =>
        var tool := ToolIdentity(i.server, i.tool);
        MadeRecord(r, i.id, i.thread, i.turn, "tool.called", "unknown", tool, "mcp", i.at, sequence);
        SamePlace(r, CallStarted(r, i, sequence),
                  SafeRecord(r, i.id, i.thread, i.turn, "tool.called", "unknown", tool, "mcp", i.at, sequence));
      case ItemCompleted(Some(i)) =>
        var tool, outcome := ToolIdentity(i.server, i.tool), r.outcomeOf(i.status, i.resultError);
        MadeRecord(r, i.id, i.thread, i.turn, "tool.called", outcome, tool, "mcp", i.at, sequence);
        SamePlace(r, CallEnded(r, i, sequence),
                  SafeRecord(r, i.id, i.thread, i.turn, "tool.called", outcome, tool, "mcp", i.at, sequence));
      case _ =>
    }
  }

  lemma {:induction false} SightingsMember(r: Rules, history: seq<Frame>, lines: seq<Line>, record: Record)
      returns (k: nat)
    requires record in Sightings(r, history, lines)
    ensures k < |lines| && CallOf(r, lines[k].frame, k + 1) == Some(record)
  {
    hide CallOf, Sightings;
    if lines == [] {
      NoSightings(r, history, lines);
    } else {
      var n := |lines| - 1;
      var front, last := lines[..n], lines[n];
      assert lines == front + [last];
      SightingsSnoc(r, history, front, last);
      if record in Sightings(r, history, front) {
        k := SightingsMember(r, history, front, record);
      } else {
        k := n;
      }
    }
  }

  lemma NoSightings(r: Rules, history: seq<Frame>, none: seq<Line>)
    requires none == []
    ensures Sightings(r, history, none) == []
  {
  }

  lemma {:induction false} FoldKeepsRecords(records: seq<Record>)
    ensures var c := CallsOf(records);
      && (c.started.Some? ==> c.started.value in records)
      && forall o :: o in c.terminals ==> c.terminals[o] in records && c.terminals[o].outcome == o
  {
    if records != [] {
      var n := |records| - 1;
      assert records == records[..n] + [records[n]];
      FoldKeepsRecords(records[..n]);
    }
  }

  lemma KeptRecord(r: Rules, key: string, records: seq<Record>, f: Final) returns (record: Record)
    requires CallsOf(records).started.Some? || CallsOf(records).terminals != map[]
    requires IsReconciled(r, key, CallsOf(records), f.record, f.category)
    ensures record in records
    ensures f.record ==
      record.(outcome := f.record.outcome, duration := f.record.duration, idempotencyKey := f.record.idempotencyKey)
    ensures f.category == "" ==> f.record.outcome == record.outcome && f.record.duration == record.duration
    ensures f.category != "" ==> f.record.outcome == "unknown" && f.record.duration == None
  {
    hide CallsOf, VerdictKey;
    FoldKeepsRecords(records);
    var c := CallsOf(records);
    assert MISSING[0] == 'm' && CONTRADICTORY[0] == 'c';
    if c.terminals == map[] {
      record := c.started.value;
    } else if exists o :: c.terminals.Keys == {o} {
      var o :| c.terminals.Keys == {o} && f.record == c.terminals[o].(idempotencyKey := VerdictKey(r, key, o));
      assert o in c.terminals;
      record := c.terminals[o];
    } else {
      var o :| Latest(c.terminals, o) && f.record == Unresolved(r, key, c.terminals[o], CONTRADICTORY);
      record := c.terminals[o];
    }
  }

  lemma ShowsAll(r: Rules, x: Record, y: Record, s: Sighting)
    requires Shows(r, x, s)
    requires y == x.(outcome := y.outcome, duration := y.duration, idempotencyKey := y.idempotencyKey)
    ensures Shows(r, y, s)
  {
  }

  /** The record emitted for a call is one of the stream's sightings of that item: its session, turn,
      server, tool and time are those of one frame. Outcome and duration are that frame's own when the
      call is resolved, and unknown and absent when it is not. */
  lemma FinalShowsFrame(r: Rules, history: seq<Frame>, lines: seq<Line>, key: string, f: Final) returns (k: nat)
    requires key in KeysOf(Sightings(r, history, lines)) && IsFinal(r, Sightings(r, history, lines), key, f)
    ensures k < |lines| && SightingOf(r, lines[k].frame).Some?
    ensures var s := SightingOf(r, lines[k].frame).value;
      && Shows(r, f.record, s) && key == "hmac-sha256:" + r.hmac("source-record/1", ["codex", s.item])
      && (if f.category == "" then s.ended && f.record.outcome == s.outcome && f.record.duration == s.duration
          else f.record.outcome == "unknown" && f.record.duration == None)
  {
    hide KeysOf, OfKey, CallsOf, Sightings, CallOf, Shows, IsReconciled, SightingOf;
    var sightings := Sightings(r, history, lines);
    SightedKeyIsReconcilable(sightings, key);
    var record := KeptRecord(r, key, OfKey(sightings, key), f);
    OfKeyMembers(sightings, key);
    k := SightingsMember(r, history, lines, record);
    CallShows(r, lines[k].frame, k + 1);
    var s := SightingOf(r, lines[k].frame).value;
    ShowsAll(r, record, f.record, s);
    ShowsSource(r, f.record, s);
    if f.category == "" { ResolvedIsEnded(r, key, OfKey(sightings, key), f); ShowsSource(r, record, s); }
  }

  /** A call without a terminal outcome is missing it, one with several contradicts itself; the record's
      key stands for the call and what became of it. */
  lemma FinalNamed(r: Rules, sightings: seq<Record>, key: string, f: Final)
    requires key in KeysOf(sightings) && IsFinal(r, sightings, key, f)
    ensures var outcomes := Outcomes(FactsOf(OfKey(sightings, key)));
      && f.category == (if outcomes == {} then "missing_terminal"
                        else if outcomes == {f.record.outcome} then "" else "contradictory_terminal")
      && (f.category == "contradictory_terminal" ==> |outcomes| > 1)
      && f.record.idempotencyKey == "hmac-sha256:"
         + r.hmac("terminal-reconciliation/1", [key, if f.category == "" then f.record.outcome else f.category])
  {
    hide CallsOf, KeysOf, OfKey, FactsOf, Summarises;
    var mine := OfKey(sightings, key);
    SightedKeyIsReconcilable(sightings, key);
    FoldSummarises(mine);
    KeysAreOutcomes(mine);
    OutcomesKept(mine);
    SizeOne(CallsOf(mine).terminals.Keys);
  }

  lemma OutcomesKept(records: seq<Record>)
    ensures forall o :: o in CallsOf(records).terminals ==> CallsOf(records).terminals[o].outcome == o
  {
    hide CallsOf, FactsOf, Earliest;
    FoldSummarises(records);
  }

  lemma ShowsSource(r: Rules, record: Record, s: Sighting)
    requires Shows(r, record, s)
    ensures record.source == "hmac-sha256:" + r.hmac("source-record/1", ["codex", s.item])
    ensures s.ended <==> record.identitySource != "native_bridge_started"
  {
    assert "native_bridge_terminal"[14] == 't' && "native_bridge_started"[14] == 's';
  }

  lemma {:induction false} TerminalsEnded(records: seq<Record>)
    ensures forall o :: o in CallsOf(records).terminals ==> CallsOf(records).terminals[o].identitySource != STARTED
  {
    if records != [] { TerminalsEnded(records[..|records| - 1]); }
  }

  lemma ResolvedIsEnded(r: Rules, key: string, records: seq<Record>, f: Final)
    requires CallsOf(records).started.Some? || CallsOf(records).terminals != map[]
    requires IsReconciled(r, key, CallsOf(records), f.record, f.category) && f.category == ""
    ensures f.record.identitySource != "native_bridge_started"
  {
    hide CallsOf, VerdictKey;
    TerminalsEnded(records);
    var c := CallsOf(records);
    assert MISSING[0] == 'm' && CONTRADICTORY[0] == 'c';
    var o :| c.terminals.Keys == {o} && f.record == c.terminals[o].(idempotencyKey := VerdictKey(r, key, o));
    assert o in c.terminals;
  }
}
