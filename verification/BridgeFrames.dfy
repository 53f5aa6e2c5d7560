/** projectFrame (internal/codexadapter/appserver_bridge.go): what one decoded frame of the
    multiplexed JSON-RPC stream becomes, and which later responses it authorises. */
module BridgeFrames {
  import opened Ordering
  import opened BridgeRecords
  import opened BridgeProjections

  // ---------- frames ----------

  datatype Thread = Thread(id: string, session: string, cliVersion: string, createdAt: int)
  datatype Turn = Turn(thread: string, id: string, startedAt: Option<int>)
  datatype Content = Content(kind: string, name: string, path: string)

  datatype StartedItem = StartedItem(
    thread: string, turn: string, at: int, id: string, kind: string, server: string, tool: string,
    content: seq<Content>)

  datatype CompletedItem = CompletedItem(
    thread: string, turn: string, at: int, id: string, kind: string, server: string, tool: string,
    status: string, resultError: bool, duration: Option<int>)

  /** A decoded frame. An absent id is the empty string; None stands for parameters or a result
      that do not decode to the expected shape. */
  datatype Frame =
    | Undecodable
    | TrailingJson
    | Response(id: string, failed: bool, list: Option<seq<seq<ListedSkill>>>, plugin: Option<PluginBody>)
    | SkillsListRequest(id: string, hasParams: bool)
    | PluginReadRequest(id: string, pluginName: Option<string>)
    | ThreadStarted(thread: Option<Thread>)
    | TurnStarted(turn: Option<Turn>)
    | ItemStarted(started: Option<StartedItem>)
    | ItemCompleted(completed: Option<CompletedItem>)
    | Unowned

  /** One line of the stream: its frame, its length, whether the context was cancelled by the time
      it was read, and the day the clock showed. */
  datatype Line = Line(frame: Frame, bytes: nat, cancelled: bool, day: int)

  type Pending = map<string, string>

  const MAX_PENDING := 128
  const MAX_TOOL_NAME := 120
  const MAX_SKILL_INPUTS := 16
  const SKILLS_LIST := "skills/list"
  const PLUGIN_READ_METHOD := "plugin/read"

  // ---------- notifications ----------

  function ToolIdentity(server: string, tool: string): string { "mcp:" + server + "/" + tool }

  function ThreadProjection(r: Rules, thread: Option<Thread>, sequence: nat): Projection
  {
    match thread
    case None => Rejected("invalid_thread_started")
    case Some(t) =>
      if t.id == "" || t.session == "" || t.cliVersion != SCHEMA_VERSION || t.createdAt <= 0 then
        Rejected("invalid_thread_started")
      else
        var at := t.createdAt * 1000;
        Projected([SafeRecord(r, t.id, t.session, "", "session.started", "unknown", "", "", at, sequence)])
  }

  function TurnProjection(r: Rules, turn: Option<Turn>, sequence: nat): Projection
  {
    match turn
    case None => Rejected("invalid_turn_started")
    case Some(t) =>
      if t.thread == "" || t.id == "" || t.startedAt.None? then Rejected("invalid_turn_started")
      else Projected([SafeRecord(r, t.id, t.thread, t.id, "prompt.submitted", "unknown", "", "",
                                 t.startedAt.value * 1000, sequence)])
  }

  predicate ValidTool(server: string, tool: string)
  {
    server != "" && tool != "" && |server| + |tool| <= MAX_TOOL_NAME
  }

  function CallStarted(r: Rules, i: StartedItem, sequence: nat): Record
  {
    var tool := ToolIdentity(i.server, i.tool);
    SafeRecord(r, i.id, i.thread, i.turn, "tool.called", "unknown", tool, "mcp", i.at, sequence).(
      identitySource := STARTED)
  }

  function CallEnded(r: Rules, i: CompletedItem, sequence: nat): Record
  {
    var outcome, tool := r.outcomeOf(i.status, i.resultError), ToolIdentity(i.server, i.tool);
    SafeRecord(r, i.id, i.thread, i.turn, "tool.called", outcome, tool, "mcp", i.at, sequence).(
      identitySource := TERMINAL, duration := i.duration)
  }

  // ---------- skills used in a message ----------

  function SkillInputs(content: seq<Content>): seq<Content>
  {
    if content == [] then []
    else
      var before, last := SkillInputs(content[..|content| - 1]), content[|content| - 1];
      before + if last.kind == "skill" then [last] else []
  }

  predicate ValidInput(r: Rules, c: Content)
  {
    r.skillName(c.name) && c.path != ""
  }

  function UseRecords(r: Rules, i: StartedItem, c: Content, sequence: nat): seq<Record>
  {
    var nativeId := i.id + ":skill:" + c.name;
    var invoked, loaded := nativeId + ":invoked", nativeId + ":loaded";
    [SafeRecord(r, invoked, i.thread, i.turn, "component.invoked", "unknown", c.name, "skill", i.at, sequence),
     SafeRecord(r, loaded, i.thread, i.turn, "component.loaded", "unknown", c.name, "skill", i.at, sequence)]
  }

  function AllUses(r: Rules, i: StartedItem, inputs: seq<Content>, sequence: nat): seq<Record>
  {
    if inputs == [] then []
    else AllUses(r, i, inputs[..|inputs| - 1], sequence) + UseRecords(r, i, inputs[|inputs| - 1], sequence)
  }

  /** Two records per skill, unless one is invalid or there are more than sixteen. */
  function MessageProjection(r: Rules, i: StartedItem, sequence: nat): Projection
  {
    var inputs := SkillInputs(i.content);
    if exists c :: c in First(MAX_SKILL_INPUTS + 1, inputs) && !ValidInput(r, c) then Rejected("invalid_skill_input")
    else if |inputs| > MAX_SKILL_INPUTS then Rejected("skill_input_limit_exceeded")
    else Projected(AllUses(r, i, inputs, sequence))
  }

  function StartedProjection(r: Rules, item: Option<StartedItem>, sequence: nat): Projection
  {
    match item
    case None => Rejected("invalid_item_started")
    case Some(i) =>
      if i.thread == "" || i.turn == "" || i.id == "" || i.at <= 0 then Rejected("invalid_item_started")
      else if i.kind == "mcpToolCall" then
        if ValidTool(i.server, i.tool) then Projected([CallStarted(r, i, sequence)])
        else Rejected("invalid_mcp_item_started")
      else if i.kind != "userMessage" then Projected([])
      else MessageProjection(r, i, sequence)
  }

  function CompletedProjection(r: Rules, item: Option<CompletedItem>, sequence: nat): Projection
  {
    if item.None? || item.value.kind != "mcpToolCall" then Projected([])
    else
      var i := item.value;
      if i.thread == "" || i.turn == "" || i.id == "" || i.at <= 0 || !ValidTool(i.server, i.tool) then
        Rejected("invalid_mcp_item_completed")
      else Projected([CallEnded(r, i, sequence)])
  }

  // ---------- requests and responses ----------

  /** The method a well-formed request asks for, with its id. */
  function Asks(r: Rules, f: Frame): Option<(string, string)>
  {
    match f
    case SkillsListRequest(id, hasParams) => if id != "" && hasParams then Some((id, SKILLS_LIST)) else None
    case PluginReadRequest(id, pluginName) =>
      if id != "" && pluginName.Some? && r.identityPart(pluginName.value) then Some((id, PLUGIN_READ_METHOD)) else None
    case _ => None
  }

  function RequestError(f: Frame): string
  {
    if f.SkillsListRequest? then "invalid_skills_list_request" else "invalid_plugin_read_request"
  }

  function PendingAfter(r: Rules, pending: Pending, f: Frame): Pending
  {
    if f.Response? then pending - {f.id}
    else if Asks(r, f).Some? && |pending| < MAX_PENDING then pending[Asks(r, f).value.0 := Asks(r, f).value.1]
    else pending
  }

  function ResponseProjection(r: Rules, pending: Pending, f: Frame, day: int): Projection
    requires f.Response?
  {
    if f.id !in pending then Projected([])
    else if pending[f.id] == SKILLS_LIST then
      if f.failed then Rejected("skills_list_response_error") else SkillsListProjection(r, day, f.list)
    else if pending[f.id] == PLUGIN_READ_METHOD then
      if f.failed then Rejected("plugin_read_response_error") else ReadProjection(r, day, f.plugin)
    else Projected([])
  }

  function RequestProjection(r: Rules, pending: Pending, f: Frame): Projection
  {
    if Asks(r, f).None? then Rejected(RequestError(f))
    else if |pending| >= MAX_PENDING then Rejected("pending_request_limit_exceeded")
    else Projected([])
  }

  function FrameProjection(r: Rules, pending: Pending, line: Line, sequence: nat): Projection
  {
    match line.frame
    case Undecodable => Rejected("unknown_or_invalid_frame_schema")
    case TrailingJson => Rejected("trailing_frame_json")
    case Response(_, _, _, _) => if line.frame.id == "" then Projected([])
                                 else ResponseProjection(r, pending, line.frame, line.day)
    case ThreadStarted(thread) => ThreadProjection(r, thread, sequence)
    case TurnStarted(turn) => TurnProjection(r, turn, sequence)
    case ItemStarted(item) => StartedProjection(r, item, sequence)
    case ItemCompleted(item) => CompletedProjection(r, item, sequence)
    case Unowned => Projected([])
    case _ => RequestProjection(r, pending, line.frame)
  }

  /** The loop over the content of a user message. */
  method ProjectMessage(r: Rules, i: StartedItem, sequence: nat) returns (p: Projection)
    ensures p == MessageProjection(r, i, sequence)
  {
    hide UseRecords;
    var records: seq<Record> := [];
    var skillCount := 0;
    ghost var inputs := SkillInputs(i.content);
    ghost var seen: seq<Content> := [];
    for k := 0 to |i.content|
      invariant seen == SkillInputs(i.content[..k]) && skillCount == |seen| <= MAX_SKILL_INPUTS
      invariant records == AllUses(r, i, seen, sequence)
      invariant forall c :: c in seen ==> ValidInput(r, c)
    {
      var input := i.content[k];
      InputsGrow(i.content, k);
      if input.kind != "skill" { continue; }
      assert seen + [input] <= inputs;
      if !r.skillName(input.name) || input.path == "" {
        assert inputs[|seen|] == input && First(MAX_SKILL_INPUTS + 1, inputs)[|seen|] == input;
        assert !ValidInput(r, input) && input in First(MAX_SKILL_INPUTS + 1, inputs);
        return Rejected("invalid_skill_input");
      }
      skillCount := skillCount + 1;
      if skillCount > MAX_SKILL_INPUTS {
        assert First(MAX_SKILL_INPUTS + 1, inputs) == seen + [input];
        assert forall c :: c in seen + [input] ==> ValidInput(r, c);
        return Rejected("skill_input_limit_exceeded");
      }
      records := records + UseRecords(r, i, input, sequence);
      assert (seen + [input])[..|seen|] == seen;
      seen := seen + [input];
    }
    assert i.content[..|i.content|] == i.content;
    assert First(MAX_SKILL_INPUTS + 1, inputs) == inputs;
    return Projected(records);
  }

  lemma InputsGrow(content: seq<Content>, k: nat)
    requires k < |content|
    ensures SkillInputs(content[..k + 1]) ==
      SkillInputs(content[..k]) + if content[k].kind == "skill" then [content[k]] else []
    ensures SkillInputs(content[..k + 1]) <= SkillInputs(content)
  {
    assert content[..k + 1][..k] == content[..k];
    InputsPrefix(content, k + 1);
  }

  lemma {:induction false} InputsPrefix(content: seq<Content>, k: nat)
    requires k <= |content|
    ensures SkillInputs(content[..k]) <= SkillInputs(content)
  {
    if k == |content| {
      assert content[..k] == content;
    } else {
      assert content[..|content| - 1][..k] == content[..k];
      InputsPrefix(content[..|content| - 1], k);
    }
  }

  // ---------- demultiplexing, over every sequence of frames ----------

  function PendingOf(r: Rules, frames: seq<Frame>): Pending
  {
    if frames == [] then map[] else PendingAfter(r, PendingOf(r, frames[..|frames| - 1]), frames[|frames| - 1])
  }

  /** Frame j was a request for id that was taken on. */
  predicate TakenOn(r: Rules, frames: seq<Frame>, j: nat, id: string, name: string)
    requires j < |frames|
  {
    Asks(r, frames[j]) == Some((id, name)) && |PendingOf(r, frames[..j])| < MAX_PENDING
  }

  /** Frame k answers id or is a later request for it that was taken on. */
  predicate Supersedes(r: Rules, frames: seq<Frame>, k: nat, id: string)
    requires k < |frames|
  {
    (frames[k].Response? && frames[k].id == id)
    || (Asks(r, frames[k]).Some? && Asks(r, frames[k]).value.0 == id && |PendingOf(r, frames[..k])| < MAX_PENDING)
  }

  /** The latest request for id that was taken on and not yet answered is frame j. */
  ghost predicate Outstanding(r: Rules, frames: seq<Frame>, j: nat, id: string, name: string)
    requires j < |frames|
  {
    TakenOn(r, frames, j, id, name) && forall k :: j < k < |frames| ==> !Supersedes(r, frames, k, id)
  }

  lemma OutstandingSnoc(r: Rules, front: seq<Frame>, last: Frame, j: nat, id: string, name: string)
    requires j < |front|
    ensures Outstanding(r, front + [last], j, id, name) <==>
      Outstanding(r, front, j, id, name) && !Supersedes(r, front + [last], |front|, id)
  {
    hide Asks, PendingOf;
    var all := front + [last];
    assert forall k {:trigger all[..k]} :: 0 <= k <= |front| ==> all[..k] == front[..k];
    assert forall k {:trigger all[k]} :: 0 <= k < |front| ==> all[k] == front[k];
    assert TakenOn(r, all, j, id, name) <==> TakenOn(r, front, j, id, name) by { assert all[..j] == front[..j]; }
    assert forall k :: 0 <= k < |front| ==> (Supersedes(r, all, k, id) <==> Supersedes(r, front, k, id)) by {
      forall k | 0 <= k < |front| ensures Supersedes(r, all, k, id) <==> Supersedes(r, front, k, id) {
        assert all[..k] == front[..k];
      }
    }
  }

  ghost predicate HasOutstanding(r: Rules, frames: seq<Frame>, id: string, name: string)
  {
    exists j :: 0 <= j < |frames| && Outstanding(r, frames, j, id, name)
  }

  lemma HasOutstandingSnoc(r: Rules, front: seq<Frame>, last: Frame, id: string, name: string)
    ensures HasOutstanding(r, front + [last], id, name) <==>
      (Asks(r, last) == Some((id, name)) && |PendingOf(r, front)| < MAX_PENDING)
      || (HasOutstanding(r, front, id, name) && !Supersedes(r, front + [last], |front|, id))
  {
    hide Asks, Outstanding, PendingOf, Supersedes;
    var n, all := |front|, front + [last];
    LastOutstanding(r, front, last, id, name);
    forall j | 0 <= j < n
      ensures Outstanding(r, all, j, id, name) <==> Outstanding(r, front, j, id, name) && !Supersedes(r, all, n, id)
    {
      OutstandingSnoc(r, front, last, j, id, name);
    }
    if HasOutstanding(r, front, id, name) && !Supersedes(r, all, n, id) {
      var j :| 0 <= j < n && Outstanding(r, front, j, id, name);
      assert Outstanding(r, all, j, id, name);
    }
    if HasOutstanding(r, all, id, name) {
      var j :| 0 <= j < |all| && Outstanding(r, all, j, id, name);
      assert j < n ==> Outstanding(r, front, j, id, name);
    }
  }

  lemma PendingStep(r: Rules, front: seq<Frame>, last: Frame, id: string, name: string)
    ensures var pending, after := PendingOf(r, front), PendingAfter(r, PendingOf(r, front), last);
      id in after && after[id] == name <==>
        (Asks(r, last) == Some((id, name)) && |pending| < MAX_PENDING)
        || (id in pending && pending[id] == name && !Supersedes(r, front + [last], |front|, id))
  {
    hide PendingOf;
    assert (front + [last])[..|front|] == front;
  }

  /** The pending map holds, for each id, exactly the method of the latest unanswered request that
      was taken on; and never more than 128 of them. */
  lemma {:induction false} PendingIsOutstanding(r: Rules, frames: seq<Frame>, id: string, name: string)
    ensures |PendingOf(r, frames)| <= MAX_PENDING
    ensures id in PendingOf(r, frames) && PendingOf(r, frames)[id] == name <==> HasOutstanding(r, frames, id, name)
  {
    hide Asks, Outstanding, Supersedes, PendingAfter;
    if frames != [] {
      var n := |frames| - 1;
      var front, last := frames[..n], frames[n];
      assert frames == front + [last];
      PendingIsOutstanding(r, front, id, name);
      HasOutstandingSnoc(r, front, last, id, name);
      PendingStep(r, front, last, id, name);
      PendingSize(r, PendingOf(r, front), last);
    }
  }

  lemma LastOutstanding(r: Rules, front: seq<Frame>, last: Frame, id: string, name: string)
    ensures Outstanding(r, front + [last], |front|, id, name) <==>
      Asks(r, last) == Some((id, name)) && |PendingOf(r, front)| < MAX_PENDING
  {
    hide Asks, PendingOf;
    assert (front + [last])[..|front|] == front;
  }

  lemma PendingSize(r: Rules, pending: Pending, f: Frame)
    requires |pending| <= MAX_PENDING
    ensures |PendingAfter(r, pending, f)| <= MAX_PENDING
  {
    hide Asks;
    if f.Response? {
      assert (pending - {f.id}).Keys == pending.Keys - {f.id};
    } else if Asks(r, f).Some? {
      var id := Asks(r, f).value.0;
      assert pending[id := ""].Keys == pending.Keys + {id};
    }
  }

  /** A response is projected only under the method of the latest unanswered request for its id
      that was taken on; any other response emits nothing and changes nothing. */
  lemma ResponsesAreOwned(r: Rules, frames: seq<Frame>, line: Line, sequence: nat)
    requires line.frame.Response?
    ensures var p := FrameProjection(r, PendingOf(r, frames), line, sequence);
      if HasOutstanding(r, frames, line.frame.id, SKILLS_LIST) then
        p == if line.frame.failed then Rejected("skills_list_response_error")
             else SkillsListProjection(r, line.day, line.frame.list)
      else if HasOutstanding(r, frames, line.frame.id, PLUGIN_READ_METHOD) then
        p == if line.frame.failed then Rejected("plugin_read_response_error")
             else ReadProjection(r, line.day, line.frame.plugin)
      else p == Projected([]) && PendingAfter(r, PendingOf(r, frames), line.frame) == PendingOf(r, frames)
  {
    hide HasOutstanding, Outstanding, SkillsListProjection, ReadProjection, PendingOf;
    var id, pending := line.frame.id, PendingOf(r, frames);
    PendingIsOutstanding(r, frames, id, SKILLS_LIST);
    PendingIsOutstanding(r, frames, id, PLUGIN_READ_METHOD);
    assert SKILLS_LIST[0] == 's' && PLUGIN_READ_METHOD[0] == 'p';
    if id in pending {
      PendingIsOutstanding(r, frames, id, pending[id]);
      OwnedMethods(r, frames, id, pending[id]);
    } else {
      assert pending - {id} == pending;
    }
  }

  lemma OwnedMethods(r: Rules, frames: seq<Frame>, id: string, name: string)
    requires HasOutstanding(r, frames, id, name)
    ensures name in {SKILLS_LIST, PLUGIN_READ_METHOD} && id != ""
  {
    hide PendingOf;
    var j :| 0 <= j < |frames| && Outstanding(r, frames, j, id, name);
    OutstandingMethod(r, frames, j, id, name);
  }

  lemma OutstandingMethod(r: Rules, frames: seq<Frame>, j: nat, id: string, name: string)
    requires j < |frames| && Outstanding(r, frames, j, id, name)
    ensures name in {SKILLS_LIST, PLUGIN_READ_METHOD} && id != ""
  {
  }

  /** Once answered, a request authorises nothing more: a second response for the id is projected
      only if another request for it was taken on in between. */
  lemma EachRequestAnswersOnce(r: Rules, frames: seq<Frame>, first: nat, id: string)
    requires first < |frames| && frames[first].Response? && frames[first].id == id
    requires id in PendingOf(r, frames)
    ensures exists j, name :: first < j < |frames| && TakenOn(r, frames, j, id, name)
  {
    hide TakenOn, PendingOf;
    PendingIsOutstanding(r, frames, id, PendingOf(r, frames)[id]);
    var j :| 0 <= j < |frames| && Outstanding(r, frames, j, id, PendingOf(r, frames)[id]);
    assert Supersedes(r, frames, first, id);
    NotAResponse(r, frames, j, id, PendingOf(r, frames)[id]);
    assert j != first;
  }

  lemma NotAResponse(r: Rules, frames: seq<Frame>, j: nat, id: string, name: string)
    requires j < |frames| && TakenOn(r, frames, j, id, name)
    ensures !frames[j].Response?
  {
  }
}
