/** projectSkillsListResponse and projectPluginReadResponse
    (internal/codexadapter/appserver_bridge.go): a response is projected whole or not at all. */
module BridgeProjections {
  import opened Ordering
  import opened BridgeRecords

  const MAX_RECORDS := 4096
  const MAX_IDENTITY := 256

  datatype Projection = Projected(records: seq<Record>) | Rejected(category: string)

  // ---------- skills/list ----------

  datatype ListedSkill = ListedSkill(name: string, path: string, enabled: bool)

  const INVALID_LIST := "invalid_skills_list_response"
  const LIST_LIMIT := "skills_list_limit_exceeded"

  predicate ValidListed(r: Rules, s: ListedSkill)
  {
    r.skillName(s.name) && s.path != ""
  }

  function ExposedRecord(r: Rules, day: int): ListedSkill -> Record
  {
    (s: ListedSkill) =>
      SafeRecord(r, "skills-list:" + s.name, "skills-list", "", "component.exposed", "unknown", s.name, "skill", day, 0)
  }

  function EnabledSkills(skills: seq<ListedSkill>): seq<ListedSkill>
  {
    if skills == [] then []
    else EnabledSkills(skills[..|skills| - 1]) + if skills[|skills| - 1].enabled then [skills[|skills| - 1]] else []
  }

  function Flatten(data: seq<seq<ListedSkill>>): seq<ListedSkill>
  {
    if data == [] then [] else Flatten(data[..|data| - 1]) + data[|data| - 1]
  }

  lemma {:induction false} EnabledConcat(s: seq<ListedSkill>, t: seq<ListedSkill>)
    ensures EnabledSkills(s + t) == EnabledSkills(s) + EnabledSkills(t)
  {
    if t == [] {
      assert s + t == s;
    } else {
      var n := |t| - 1;
      assert (s + t)[..|s| + n] == s + t[..n];
      EnabledConcat(s, t[..n]);
    }
  }

  /** What a list of enabled skills projects to: one record each, unless one is invalid or there
      are too many; an invalid one beyond the limit is never reached. */
  function ListProjection(r: Rules, day: int, enabled: seq<ListedSkill>): Projection
  {
    var reached := First(MAX_RECORDS + 1, enabled);
    if exists s :: s in reached && !ValidListed(r, s) then Rejected(INVALID_LIST)
    else if |enabled| > MAX_RECORDS then Rejected(LIST_LIMIT)
    else Projected(Map(ExposedRecord(r, day), enabled))
  }

  function SkillsListProjection(r: Rules, day: int, data: Option<seq<seq<ListedSkill>>>): Projection
  {
    if data.None? then Rejected(INVALID_LIST) else ListProjection(r, day, EnabledSkills(Flatten(data.value)))
  }

  method ProjectSkillsList(r: Rules, day: int, data: Option<seq<seq<ListedSkill>>>) returns (p: Projection)
    ensures p == SkillsListProjection(r, day, data)
  {
    hide ExposedRecord, ListProjection;
    if data.None? { return Rejected(INVALID_LIST); }
    var entries := data.value;
    ghost var all := EnabledSkills(Flatten(entries));
    ghost var seen: seq<ListedSkill> := [];
    var records: seq<Record> := [];
    for i := 0 to |entries|
      invariant seen == EnabledSkills(Flatten(entries[..i])) && |seen| <= MAX_RECORDS
      invariant records == Map(ExposedRecord(r, day), seen)
      invariant forall s :: s in seen ==> ValidListed(r, s)
    {
      var skills := entries[i];
      ghost var before := seen;
      EntriesGrow(entries, i);
      for j := 0 to |skills|
        invariant seen == before + EnabledSkills(skills[..j]) && |seen| <= MAX_RECORDS
        invariant records == Map(ExposedRecord(r, day), seen)
        invariant forall s :: s in seen ==> ValidListed(r, s)
      {
        var s := skills[j];
        SkillsGrow(skills, j);
        if !s.enabled { continue; }
        FlattenStartsWith(entries, i, skills, j, before);
        if !r.skillName(s.name) || s.path == "" {
          InvalidReached(r, day, all, seen, s);
          return Rejected(INVALID_LIST);
        }
        if |records| >= MAX_RECORDS {
          LimitReached(r, day, all, seen, s);
          return Rejected(LIST_LIMIT);
        }
        records := records + [ExposedRecord(r, day)(s)];
        seen := seen + [s];
        MapConcat(ExposedRecord(r, day), before + EnabledSkills(skills[..j]), [s]);
        assert Map(ExposedRecord(r, day), [s]) == [ExposedRecord(r, day)(s)];
      }
      assert skills[..|skills|] == skills;
    }
    assert entries[..|entries|] == entries;
    EverySkillExposed(r, day, all);
    return Projected(records);
  }

  lemma EverySkillExposed(r: Rules, day: int, all: seq<ListedSkill>)
    requires |all| <= MAX_RECORDS && forall s :: s in all ==> ValidListed(r, s)
    ensures ListProjection(r, day, all) == Projected(Map(ExposedRecord(r, day), all))
  {
    hide ValidListed;
    assert First(MAX_RECORDS + 1, all) == all;
  }

  lemma EntriesGrow(data: seq<seq<ListedSkill>>, i: nat)
    requires i < |data|
    ensures EnabledSkills(Flatten(data[..i + 1])) == EnabledSkills(Flatten(data[..i])) + EnabledSkills(data[i])
  {
    assert data[..i + 1][..i] == data[..i];
    EnabledConcat(Flatten(data[..i]), data[i]);
  }

  lemma SkillsGrow(skills: seq<ListedSkill>, j: nat)
    requires j < |skills|
    ensures EnabledSkills(skills[..j + 1]) == EnabledSkills(skills[..j]) + if skills[j].enabled then [skills[j]] else []
  {
    assert skills[..j + 1][..j] == skills[..j];
  }

  /** What has been seen so far starts the list of all enabled skills. */
  lemma FlattenStartsWith(data: seq<seq<ListedSkill>>, i: nat, skills: seq<ListedSkill>, j: nat,
                          before: seq<ListedSkill>)
    requires i < |data| && data[i] == skills && j < |skills| && skills[j].enabled
    requires before == EnabledSkills(Flatten(data[..i]))
    ensures before + EnabledSkills(skills[..j]) + [skills[j]] <= EnabledSkills(Flatten(data))
  {
    hide EnabledSkills, Flatten;
    EntriesGrow(data, i);
    SkillsGrow(skills, j);
    EnabledPrefix(skills, j + 1);
    FlattenPrefix(data, i + 1);
    PrefixUnder(before, EnabledSkills(skills[..j]), skills[j], EnabledSkills(skills), EnabledSkills(Flatten(data)));
  }

  lemma PrefixUnder<A>(before: seq<A>, front: seq<A>, x: A, all: seq<A>, full: seq<A>)
    requires front + [x] <= all && before + all <= full
    ensures before + front + [x] <= full
  {
    assert before + front + [x] == before + (front + [x]);
    assert before + (front + [x]) <= before + all;
  }

  lemma EnabledPrefix(skills: seq<ListedSkill>, j: nat)
    requires j <= |skills|
    ensures EnabledSkills(skills[..j]) <= EnabledSkills(skills)
  {
    assert skills == skills[..j] + skills[j..];
    EnabledConcat(skills[..j], skills[j..]);
  }

  lemma {:induction false} FlattenPrefix(data: seq<seq<ListedSkill>>, i: nat)
    requires i <= |data|
    ensures EnabledSkills(Flatten(data[..i])) <= EnabledSkills(Flatten(data))
  {
    if i == |data| {
      assert data[..i] == data;
    } else {
      var n := |data| - 1;
      assert data[..n][..i] == data[..i];
      FlattenPrefix(data[..n], i);
      EnabledConcat(Flatten(data[..n]), data[n]);
    }
  }

  lemma InvalidReached(r: Rules, day: int, all: seq<ListedSkill>, seen: seq<ListedSkill>, s: ListedSkill)
    requires seen + [s] <= all && |seen| <= MAX_RECORDS && !ValidListed(r, s)
    ensures ListProjection(r, day, all) == Rejected(INVALID_LIST)
  {
    hide ValidListed;
    var reached := First(MAX_RECORDS + 1, all);
    assert all[|seen|] == s && reached[|seen|] == s && s in reached;
  }

  lemma LimitReached(r: Rules, day: int, all: seq<ListedSkill>, seen: seq<ListedSkill>, s: ListedSkill)
    requires seen + [s] <= all && |seen| == MAX_RECORDS
    requires ValidListed(r, s) && forall x :: x in seen ==> ValidListed(r, x)
    ensures ListProjection(r, day, all) == Rejected(LIST_LIMIT)
  {
    hide ValidListed;
    var reached := First(MAX_RECORDS + 1, all);
    assert reached == seen + [s];
  }

  /** No partial list: records are emitted only when every enabled skill has one. */
  lemma ListIsAllOrNothing(r: Rules, day: int, enabled: seq<ListedSkill>)
    ensures var p := ListProjection(r, day, enabled);
      && (p.Projected? <==> |enabled| <= MAX_RECORDS && forall s :: s in enabled ==> ValidListed(r, s))
      && (p.Projected? ==> |p.records| == |enabled|)
  {
    if |enabled| <= MAX_RECORDS { assert First(MAX_RECORDS + 1, enabled) == enabled; }
  }

  // ---------- plugin/read ----------

  datatype ReadSkill = ReadSkill(name: string, enabled: bool)

  /** The decoded response; hooks are named by their keys and apps by their names. */
  datatype PluginBody = PluginBody(
    id: string,
    name: string,
    marketplace: string,
    installed: bool,
    enabled: bool,
    skills: seq<ReadSkill>,
    servers: seq<string>,
    hooks: seq<string>,
    apps: seq<string>)

  const INVALID_READ := "invalid_plugin_read_response"
  const READ_LIMIT := "plugin_read_response_limit_exceeded"

  /** bridgePluginIdentity. */
  function PluginIdentity(r: Rules, name: string, marketplace: string): Option<string>
  {
    var identity := name + "@" + marketplace;
    if r.identityPart(name) && r.identityPart(marketplace) && |identity| <= MAX_IDENTITY then Some(identity) else None
  }

  function IdentityText(r: Rules, b: PluginBody): string
  {
    match PluginIdentity(r, b.name, b.marketplace) case Some(identity) => identity case None => ""
  }

  datatype Child = Child(kind: string, name: string, nativeId: string, enabled: bool)

  function BaseRecord(r: Rules, b: PluginBody, day: int, suffix: string, event: string, kind: string, identity: string,
                      owner: string): Record
  {
    SafeRecord(r, "plugin-read:" + b.id + ":" + suffix, "plugin-read", "", event, "unknown", identity, kind, day, 0).(
      identitySource := PLUGIN_READ,
      upstream := Pseudonym(r, "upstream-plugin-identity/1", [b.id]),
      owner := owner,
      sourceScope := "marketplace")
  }

  function PluginRecord(r: Rules, b: PluginBody, day: int, suffix: string, event: string): Record
  {
    var record := BaseRecord(r, b, day, suffix, event, "plugin", IdentityText(r, b), "");
    if PluginIdentity(r, b.name, b.marketplace).Some? then record
    else record.(identitySource := REDACTED, identity := "")
  }

  predicate NamedChild(r: Rules, b: PluginBody, name: string)
  {
    PluginIdentity(r, b.name, b.marketplace).Some? && r.componentName(name)
  }

  /** A child is named under its plugin when both names are usable, even when that name is then
      too long to count as observed. */
  function ChildIdentity(r: Rules, b: PluginBody, name: string): string
  {
    if NamedChild(r, b, name) then IdentityText(r, b) + ":" + name else ""
  }

  predicate ChildObserved(r: Rules, b: PluginBody, name: string)
  {
    NamedChild(r, b, name) && |ChildIdentity(r, b, name)| <= MAX_IDENTITY
  }

  function ChildRecord(r: Rules, b: PluginBody, day: int, c: Child, suffix: string, event: string): Record
  {
    var record :=
      BaseRecord(r, b, day, c.nativeId + ":" + suffix, event, c.kind, ChildIdentity(r, b, c.name), IdentityText(r, b));
    if ChildObserved(r, b, c.name) then record
    else record.(identitySource := REDACTED,
                 upstream := Pseudonym(r, "upstream-plugin-child-identity/1", [b.id, c.kind, c.name]))
  }

  function PluginLifecycle(r: Rules, b: PluginBody, day: int): seq<Record>
  {
    [PluginRecord(r, b, day, "requested", "component.requested")]
    + (if b.installed then [PluginRecord(r, b, day, "installed", "component.installed")] else [])
    + (if b.enabled then [PluginRecord(r, b, day, "enabled", "component.enabled")] else [])
  }

  function ChildLifecycle(r: Rules, b: PluginBody, day: int, c: Child): seq<Record>
  {
    (if b.installed then [ChildRecord(r, b, day, c, "installed", "component.installed")] else [])
    + (if b.enabled && c.enabled then [ChildRecord(r, b, day, c, "enabled", "component.enabled")] else [])
  }

  function Lifecycles(r: Rules, b: PluginBody, day: int, children: seq<Child>): seq<Record>
  {
    if children == [] then []
    else Lifecycles(r, b, day, children[..|children| - 1]) + ChildLifecycle(r, b, day, children[|children| - 1])
  }

  function SkillChildren(r: Rules, skills: seq<ReadSkill>): seq<Child>
  {
    seq(|skills|,
        (i: nat) requires i < |skills| => Child("skill", skills[i].name, "skill:" + r.numeral(i), skills[i].enabled))
  }

  function NamedChildren(r: Rules, kind: string, names: seq<string>): seq<Child>
  {
    seq(|names|, (i: nat) requires i < |names| => Child(kind, names[i], kind + ":" + r.numeral(i), true))
  }

  function Children(r: Rules, b: PluginBody): seq<Child>
  {
    SkillChildren(r, b.skills) + NamedChildren(r, "mcp", b.servers) + NamedChildren(r, "hook", b.hooks)
    + NamedChildren(r, "app", b.apps)
  }

  function AllRecords(r: Rules, b: PluginBody, day: int): seq<Record>
  {
    PluginLifecycle(r, b, day) + Lifecycles(r, b, day, Children(r, b))
  }

  predicate ValidBody(b: PluginBody)
  {
    b.id != "" && b.name != "" && b.marketplace != ""
  }

  /** What a plugin/read response projects to. */
  function ReadProjection(r: Rules, day: int, body: Option<PluginBody>): Projection
  {
    if body.None? || !ValidBody(body.value) then Rejected(INVALID_READ)
    else if |AllRecords(r, body.value, day)| <= MAX_RECORDS then Projected(AllRecords(r, body.value, day))
    else Rejected(READ_LIMIT)
  }

  /** The record list under construction: appending fails once it is full. */
  class Collector {
    var records: seq<Record>

    constructor ()
      ensures records == []
    {
      records := [];
    }

    method Append(record: Record) returns (ok: bool)
      modifies this
      ensures ok <==> |old(records)| < MAX_RECORDS
      ensures records == old(records) + if ok then [record] else []
    {
      if |records| >= MAX_RECORDS { return false; }
      records := records + [record];
      return true;
    }

    method AppendChild(r: Rules, b: PluginBody, day: int, c: Child) returns (ok: bool)
      requires |records| <= MAX_RECORDS
      modifies this
      ensures ok <==> |old(records)| + |ChildLifecycle(r, b, day, c)| <= MAX_RECORDS
      ensures ok ==> records == old(records) + ChildLifecycle(r, b, day, c)
    {
      hide ChildRecord;
      ok := true;
      if b.installed {
        ok := Append(ChildRecord(r, b, day, c, "installed", "component.installed"));
        if !ok { return; }
      }
      if b.enabled && c.enabled {
        ok := Append(ChildRecord(r, b, day, c, "enabled", "component.enabled"));
      }
    }

    method AppendChildren(r: Rules, b: PluginBody, day: int, children: seq<Child>) returns (ok: bool)
      requires |records| <= MAX_RECORDS
      modifies this
      ensures ok <==> |old(records)| + |Lifecycles(r, b, day, children)| <= MAX_RECORDS
      ensures ok ==> records == old(records) + Lifecycles(r, b, day, children)
    {
      hide ChildLifecycle;
      ghost var start := records;
      for i := 0 to |children|
        invariant |records| <= MAX_RECORDS
        invariant records == start + Lifecycles(r, b, day, children[..i])
      {
        assert children[..i + 1][..i] == children[..i];
        LifecyclesPrefix(r, b, day, children, i + 1);
        ok := AppendChild(r, b, day, children[i]);
        if !ok { return; }
      }
      assert children[..|children|] == children;
      return true;
    }
  }

  lemma {:induction false} LifecyclesPrefix(r: Rules, b: PluginBody, day: int, children: seq<Child>, i: nat)
    requires i <= |children|
    ensures |Lifecycles(r, b, day, children[..i])| <= |Lifecycles(r, b, day, children)|
  {
    hide ChildLifecycle;
    if i == |children| {
      assert children[..i] == children;
    } else {
      assert children[..|children| - 1][..i] == children[..i];
      LifecyclesPrefix(r, b, day, children[..|children| - 1], i);
    }
  }

  lemma {:induction false} LifecyclesConcat(r: Rules, b: PluginBody, day: int, s: seq<Child>, t: seq<Child>)
    ensures Lifecycles(r, b, day, s + t) == Lifecycles(r, b, day, s) + Lifecycles(r, b, day, t)
  {
    hide ChildLifecycle;
    if t == [] {
      assert s + t == s;
    } else {
      var n := |t| - 1;
      assert (s + t)[..|s| + n] == s + t[..n];
      LifecyclesConcat(r, b, day, s, t[..n]);
    }
  }

  lemma AllRecordsSplit(r: Rules, b: PluginBody, day: int)
    ensures AllRecords(r, b, day) == PluginLifecycle(r, b, day) + Lifecycles(r, b, day, SkillChildren(r, b.skills))
      + Lifecycles(r, b, day, NamedChildren(r, "mcp", b.servers))
      + Lifecycles(r, b, day, NamedChildren(r, "hook", b.hooks))
      + Lifecycles(r, b, day, NamedChildren(r, "app", b.apps))
  {
    hide Lifecycles, PluginLifecycle, SkillChildren, NamedChildren;
    var skills, servers := SkillChildren(r, b.skills), NamedChildren(r, "mcp", b.servers);
    var hooks, apps := NamedChildren(r, "hook", b.hooks), NamedChildren(r, "app", b.apps);
    LifecyclesConcat(r, b, day, skills, servers);
    LifecyclesConcat(r, b, day, skills + servers, hooks);
    LifecyclesConcat(r, b, day, skills + servers + hooks, apps);
  }

  method ProjectPluginRead(r: Rules, day: int, body: Option<PluginBody>) returns (p: Projection)
    ensures p == ReadProjection(r, day, body)
  {
    hide PluginRecord, Lifecycles, AllRecords, SkillChildren, NamedChildren;
    if body.None? || !ValidBody(body.value) { return Rejected(INVALID_READ); }
    var b := body.value;
    AllRecordsSplit(r, b, day);
    var c := new Collector();
    var ok := c.Append(PluginRecord(r, b, day, "requested", "component.requested"));
    if !ok { return Rejected(READ_LIMIT); }
    if b.installed {
      ok := c.Append(PluginRecord(r, b, day, "installed", "component.installed"));
      if !ok { return Rejected(READ_LIMIT); }
    }
    if b.enabled {
      ok := c.Append(PluginRecord(r, b, day, "enabled", "component.enabled"));
      if !ok { return Rejected(READ_LIMIT); }
    }
    assert c.records == PluginLifecycle(r, b, day);
    ok := c.AppendChildren(r, b, day, SkillChildren(r, b.skills));
    if !ok { return Rejected(READ_LIMIT); }
    ok := c.AppendChildren(r, b, day, NamedChildren(r, "mcp", b.servers));
    if !ok { return Rejected(READ_LIMIT); }
    ok := c.AppendChildren(r, b, day, NamedChildren(r, "hook", b.hooks));
    if !ok { return Rejected(READ_LIMIT); }
    ok := c.AppendChildren(r, b, day, NamedChildren(r, "app", b.apps));
    if !ok { return Rejected(READ_LIMIT); }
    return Projected(c.records);
  }

  // ---------- closed form and ownership ----------

  function EnabledCount(skills: seq<ReadSkill>): nat
  {
    if skills == [] then 0 else EnabledCount(skills[..|skills| - 1]) + if skills[|skills| - 1].enabled then 1 else 0
  }

  lemma {:induction false} SkillLifecyclesCount(r: Rules, b: PluginBody, day: int, skills: seq<ReadSkill>)
    ensures |Lifecycles(r, b, day, SkillChildren(r, skills))| ==
      (if b.installed then |skills| else 0) + if b.enabled then EnabledCount(skills) else 0
  {
    hide ChildRecord;
    if skills != [] {
      var n := |skills| - 1;
      SkillLifecyclesCount(r, b, day, skills[..n]);
      assert SkillChildren(r, skills)[..n] == SkillChildren(r, skills[..n]);
    }
  }

  lemma {:induction false} NamedLifecyclesCount(r: Rules, b: PluginBody, day: int, kind: string, names: seq<string>)
    ensures |Lifecycles(r, b, day, NamedChildren(r, kind, names))| ==
      (if b.installed then |names| else 0) + if b.enabled then |names| else 0
  {
    hide ChildRecord;
    if names != [] {
      var n := |names| - 1;
      NamedLifecyclesCount(r, b, day, kind, names[..n]);
      assert NamedChildren(r, kind, names)[..n] == NamedChildren(r, kind, names[..n]);
    }
  }

  /** The number of records a plugin/read response calls for. */
  function RecordCount(b: PluginBody): nat
  {
    var others := |b.servers| + |b.hooks| + |b.apps|;
    1 + (if b.installed then 1 + |b.skills| + others else 0)
    + (if b.enabled then 1 + EnabledCount(b.skills) + others else 0)
  }

  /** A plugin/read response yields exactly the called-for records when they fit in the limit, and
      none otherwise. */
  lemma ReadIsAllOrNothing(r: Rules, day: int, b: PluginBody)
    requires ValidBody(b)
    ensures var p := ReadProjection(r, day, Some(b));
      if RecordCount(b) <= MAX_RECORDS then p.Projected? && |p.records| == RecordCount(b) else p == Rejected(READ_LIMIT)
  {
    hide Lifecycles, SkillChildren, NamedChildren, AllRecords, PluginRecord;
    AllRecordsSplit(r, b, day);
    SkillLifecyclesCount(r, b, day, b.skills);
    NamedLifecyclesCount(r, b, day, "mcp", b.servers);
    NamedLifecyclesCount(r, b, day, "hook", b.hooks);
    NamedLifecyclesCount(r, b, day, "app", b.apps);
  }

  lemma {:induction false} LifecyclesMember(r: Rules, b: PluginBody, day: int, children: seq<Child>, record: Record)
    requires record in Lifecycles(r, b, day, children)
    ensures exists c :: c in children && record in ChildLifecycle(r, b, day, c)
  {
    hide ChildLifecycle;
    var n := |children| - 1;
    if record in Lifecycles(r, b, day, children[..n]) {
      LifecyclesMember(r, b, day, children[..n], record);
      var c :| c in children[..n] && record in ChildLifecycle(r, b, day, c);
      assert c in children;
    } else {
      assert children[n] in children;
    }
  }

  predicate PluginShaped(r: Rules, b: PluginBody, record: Record)
  {
    && record.kind == "plugin" && record.owner == "" && record.identity == IdentityText(r, b)
    && (record.identitySource == REDACTED <==> PluginIdentity(r, b.name, b.marketplace).None?)
  }

  predicate ChildShaped(r: Rules, b: PluginBody, c: Child, record: Record)
  {
    && record.kind == c.kind && record.owner == IdentityText(r, b) && record.identity == ChildIdentity(r, b, c.name)
    && (record.identitySource == REDACTED <==> !ChildObserved(r, b, c.name))
  }

  /** Every record of a child carries the plugin as owner when the plugin's identity is usable;
      it is redacted exactly when the child's own is not, and even then keeps a qualified name
      that was merely too long. */
  lemma ChildrenAreOwned(r: Rules, day: int, b: PluginBody, record: Record)
    requires ReadProjection(r, day, Some(b)).Projected? && record in ReadProjection(r, day, Some(b)).records
    ensures if record.kind == "plugin" then PluginShaped(r, b, record)
            else exists c :: c in Children(r, b) && ChildShaped(r, b, c, record)
  {
    hide Lifecycles, Children, ChildIdentity, SafeRecord, ChildObserved, PluginIdentity;
    if record in PluginLifecycle(r, b, day) {
      PluginRecordShape(r, b, day, record);
    } else {
      LifecyclesMember(r, b, day, Children(r, b), record);
      var c :| c in Children(r, b) && record in ChildLifecycle(r, b, day, c);
      ChildKinds(r, b, c);
      ChildRecordShape(r, b, day, c, record);
    }
  }

  lemma PluginRecordShape(r: Rules, b: PluginBody, day: int, record: Record)
    requires record in PluginLifecycle(r, b, day)
    ensures PluginShaped(r, b, record)
  {
    hide PluginIdentity, Pseudonym, SourceKey, SkillOwner;
    assert PLUGIN_READ[0] == 'n' && REDACTED[0] == 'r';
  }

  lemma ChildRecordShape(r: Rules, b: PluginBody, day: int, c: Child, record: Record)
    requires record in ChildLifecycle(r, b, day, c)
    ensures ChildShaped(r, b, c, record)
  {
    hide IdentityText, ChildIdentity, ChildObserved, Pseudonym, SourceKey, SkillOwner;
    assert PLUGIN_READ[0] == 'n' && REDACTED[0] == 'r';
  }

  lemma ChildKinds(r: Rules, b: PluginBody, c: Child)
    requires c in Children(r, b)
    ensures c.kind != "plugin"
  {
    assert "skill" != "plugin" && "mcp" != "plugin" && "hook" != "plugin" && "app" != "plugin";
  }

  /** A name that is only too long is redacted and still there. */
  lemma RedactedIsNotEmpty(r: Rules, b: PluginBody, name: string)
    requires NamedChild(r, b, name) && |b.name| + |b.marketplace| + |name| + 2 > MAX_IDENTITY
    ensures !ChildObserved(r, b, name) && ChildIdentity(r, b, name) == b.name + "@" + b.marketplace + ":" + name
  {
  }
}
