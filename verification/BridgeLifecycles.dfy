/** What the records of the two owned responses say: which skills are exposed, and which lifecycle
    events of a plugin and of each of its children are reported. */
module BridgeLifecycles {
  import opened Ordering
  import opened BridgeRecords
  import opened BridgeProjections
  import opened BridgeEvidence

  // ---------- skills/list ----------

  predicate Listed(data: seq<seq<ListedSkill>>, s: ListedSkill)
  {
    exists skills :: skills in data && s in skills
  }

  lemma {:induction false} FlattenMember(data: seq<seq<ListedSkill>>, s: ListedSkill)
    ensures s in Flatten(data) <==> Listed(data, s)
  {
    if data != [] {
      var n := |data| - 1;
      assert data == data[..n] + [data[n]];
      FlattenMember(data[..n], s);
      if s in data[n] { assert data[n] in data; }
    }
  }

  lemma {:induction false} EnabledMember(skills: seq<ListedSkill>, s: ListedSkill)
    ensures s in EnabledSkills(skills) <==> s in skills && s.enabled
  {
    if skills != [] {
      var n := |skills| - 1;
      assert skills == skills[..n] + [skills[n]];
      EnabledMember(skills[..n], s);
    }
  }

  /** A skill that can be used from anywhere: it belongs to no session but the listing's own. */
  predicate Exposes(r: Rules, day: int, s: ListedSkill, record: Record)
  {
    && record.eventType == "component.exposed" && record.kind == "skill" && record.outcome == "unknown"
    && record.tool == record.identity == s.name && record.owner == SkillOwner("skill", s.name)
    && record.observedAt == day && Placed(r, record, Site("skills-list", ""))
    && Keys(r, record, "skills-list:" + s.name, "skills-list")
  }

  /** A response is projected only if all its enabled skills are; then each of them has a record that
      exposes it, and every record exposes one of them. */
  lemma ListedSkillsExposed(r: Rules, day: int, data: seq<seq<ListedSkill>>)
    requires SkillsListProjection(r, day, Some(data)).Projected?
    ensures var records := SkillsListProjection(r, day, Some(data)).records;
      && (forall record :: record in records ==> exists s :: Listed(data, s) && s.enabled && Exposes(r, day, s, record))
      && (forall s :: Listed(data, s) && s.enabled ==>
            r.skillName(s.name) && s.path != "" && exists record :: record in records && Exposes(r, day, s, record))
  {
    hide Flatten, EnabledSkills, Exposes, Listed, ExposedRecord, ValidListed, Map;
    var enabled := EnabledSkills(Flatten(data));
    ListIsAllOrNothing(r, day, enabled);
    ExposedOneByOne(r, day, enabled);
    forall s ensures s in enabled <==> Listed(data, s) && s.enabled {
      EnabledMember(Flatten(data), s);
      FlattenMember(data, s);
    }
    forall s | s in enabled ensures r.skillName(s.name) && s.path != "" { UsableListed(r, s); }
  }

  lemma UsableListed(r: Rules, s: ListedSkill)
    ensures ValidListed(r, s) <==> r.skillName(s.name) && s.path != ""
  {
  }

  lemma ExposedOneByOne(r: Rules, day: int, enabled: seq<ListedSkill>)
    ensures var records := Map(ExposedRecord(r, day), enabled);
      && (forall record :: record in records ==> exists s :: s in enabled && Exposes(r, day, s, record))
      && (forall s :: s in enabled ==> exists record :: record in records && Exposes(r, day, s, record))
  {
    hide ExposedRecord, Exposes;
    var records := Map(ExposedRecord(r, day), enabled);
    forall record | record in records ensures exists s :: s in enabled && Exposes(r, day, s, record) {
      var i :| 0 <= i < |records| && records[i] == record;
      SkillExposed(r, day, enabled[i]);
      assert enabled[i] in enabled;
    }
    forall s | s in enabled ensures exists record :: record in records && Exposes(r, day, s, record) {
      var i :| 0 <= i < |enabled| && enabled[i] == s;
      SkillExposed(r, day, s);
      assert records[i] in records;
    }
  }

  lemma SkillExposed(r: Rules, day: int, s: ListedSkill)
    ensures Exposes(r, day, s, ExposedRecord(r, day)(s))
  {
    hide SafeRecord, Placed, Keys, SkillOwner;
    MadeRecord(r, "skills-list:" + s.name, "skills-list", "", "component.exposed", "unknown", s.name, "skill", day, 0);
  }

  // ---------- plugin/read ----------

  /** The plugin's identity as the records carry it: empty unless both names are usable and it fits. */
  function QualifiedName(r: Rules, b: PluginBody): string
  {
    if r.identityPart(b.name) && r.identityPart(b.marketplace) && |b.name| + 1 + |b.marketplace| <= 256
    then b.name + "@" + b.marketplace else ""
  }

  /** The lifecycle events of the plugin itself. */
  predicate PluginReaches(b: PluginBody, stage: string)
  {
    stage == "requested" || (stage == "installed" && b.installed) || (stage == "enabled" && b.enabled)
  }

  /** A child is installed with its plugin, and enabled when both are. */
  predicate ChildReaches(b: PluginBody, c: Child, stage: string)
  {
    (stage == "installed" && b.installed) || (stage == "enabled" && b.enabled && c.enabled)
  }

  /** What every record of a read carries. */
  predicate FromRead(r: Rules, b: PluginBody, day: int, stage: string, nativeId: string, record: Record)
  {
    && record.eventType == "component." + stage && record.outcome == "unknown" && record.observedAt == day
    && record.sourceScope == "marketplace" && Placed(r, record, Site("plugin-read", ""))
    && Keys(r, record, "plugin-read:" + b.id + ":" + nativeId, "plugin-read")
  }

  predicate TellsPlugin(r: Rules, b: PluginBody, day: int, stage: string, record: Record)
  {
    && FromRead(r, b, day, stage, stage, record) && record.kind == "plugin" && record.owner == ""
    && record.tool == record.identity == QualifiedName(r, b)
    && record.identitySource == (if QualifiedName(r, b) == "" then "redacted" else "native_bridge_plugin_read")
    && record.upstream == "hmac-sha256:" + r.hmac("upstream-plugin-identity/1", [b.id])
  }

  /** The child's name under its plugin, empty unless both can be named. */
  function ChildName(r: Rules, b: PluginBody, c: Child): string
  {
    if QualifiedName(r, b) != "" && r.componentName(c.name) then QualifiedName(r, b) + ":" + c.name else ""
  }

  predicate TellsChild(r: Rules, b: PluginBody, day: int, c: Child, stage: string, record: Record)
  {
    && FromRead(r, b, day, stage, c.nativeId + ":" + stage, record)
    && record.kind == c.kind && record.owner == QualifiedName(r, b)
       && record.tool == record.identity == ChildName(r, b, c)
    && if ChildName(r, b, c) != "" && |ChildName(r, b, c)| <= 256 then
         && record.identitySource == "native_bridge_plugin_read"
         && record.upstream == "hmac-sha256:" + r.hmac("upstream-plugin-identity/1", [b.id])
       else
         && record.identitySource == "redacted"
         && record.upstream == "hmac-sha256:" + r.hmac("upstream-plugin-child-identity/1", [b.id, c.kind, c.name])
  }

  lemma NamesAgree(r: Rules, b: PluginBody, c: Child)
    ensures IdentityText(r, b) == QualifiedName(r, b)
    ensures PluginIdentity(r, b.name, b.marketplace).Some? <==> QualifiedName(r, b) != ""
    ensures ChildIdentity(r, b, c.name) == ChildName(r, b, c)
    ensures ChildObserved(r, b, c.name) <==> ChildName(r, b, c) != "" && |ChildName(r, b, c)| <= 256
  {
  }

  lemma PseudonymText(r: Rules, namespace: string, parts: seq<string>)
    ensures Pseudonym(r, namespace, parts) == "hmac-sha256:" + r.hmac(namespace, parts)
  {
  }

  lemma BaseTold(r: Rules, b: PluginBody, day: int, stage: string, nativeId: string, kind: string, identity: string,
                 owner: string)
    ensures var record := BaseRecord(r, b, day, nativeId, "component." + stage, kind, identity, owner);
      && FromRead(r, b, day, stage, nativeId, record) && record.kind == kind && record.owner == owner
      && record.tool == record.identity == identity && record.identitySource == "native_bridge_plugin_read"
      && record.upstream == "hmac-sha256:" + r.hmac("upstream-plugin-identity/1", [b.id])
  {
    hide SafeRecord, Placed, Keys, Pseudonym, FromRead;
    PseudonymText(r, "upstream-plugin-identity/1", [b.id]);
    var event, id := "component." + stage, "plugin-read:" + b.id + ":" + nativeId;
    var made := SafeRecord(r, id, "plugin-read", "", event, "unknown", identity, kind, day, 0);
    MadeRecord(r, id, "plugin-read", "", event, "unknown", identity, kind, day, 0);
    MadeForRead(r, b, day, stage, nativeId, made, BaseRecord(r, b, day, nativeId, event, kind, identity, owner));
  }

  lemma MadeForRead(r: Rules, b: PluginBody, day: int, stage: string, nativeId: string, made: Record, record: Record)
    requires made.eventType == "component." + stage && made.outcome == "unknown" && made.observedAt == day
    requires Placed(r, made, Site("plugin-read", ""))
    requires Keys(r, made, "plugin-read:" + b.id + ":" + nativeId, "plugin-read")
    requires record.sourceScope == "marketplace"
    requires record ==
      made.(identitySource := record.identitySource, upstream := record.upstream, owner := record.owner,
                             sourceScope := record.sourceScope)
    ensures FromRead(r, b, day, stage, nativeId, record)
  {
    hide Placed, Keys;
    SamePlace(r, made, record);
  }

  lemma StillFromRead(r: Rules, b: PluginBody, day: int, stage: string, nativeId: string, x: Record, y: Record)
    requires FromRead(r, b, day, stage, nativeId, x)
    requires y == x.(identitySource := y.identitySource, identity := y.identity, upstream := y.upstream)
    ensures FromRead(r, b, day, stage, nativeId, y)
  {
    SamePlace(r, x, y);
  }

  lemma PluginTold(r: Rules, b: PluginBody, day: int, stage: string)
    ensures TellsPlugin(r, b, day, stage, PluginRecord(r, b, day, stage, "component." + stage))
  {
    hide BaseRecord, FromRead, PluginIdentity, QualifiedName, IdentityText;
    NamesAgree(r, b, Child("", "", "", false));
    var base := BaseRecord(r, b, day, stage, "component." + stage, "plugin", IdentityText(r, b), "");
    BaseTold(r, b, day, stage, stage, "plugin", IdentityText(r, b), "");
    StillFromRead(r, b, day, stage, stage, base, PluginRecord(r, b, day, stage, "component." + stage));
  }

  lemma ChildTold(r: Rules, b: PluginBody, day: int, c: Child, stage: string)
    ensures TellsChild(r, b, day, c, stage, ChildRecord(r, b, day, c, stage, "component." + stage))
  {
    hide BaseRecord, FromRead, PluginIdentity, QualifiedName, ChildIdentity, ChildObserved, ChildName, IdentityText;
    NamesAgree(r, b, c);
    var nativeId, identity, owner := c.nativeId + ":" + stage, ChildIdentity(r, b, c.name), IdentityText(r, b);
    var base := BaseRecord(r, b, day, nativeId, "component." + stage, c.kind, identity, owner);
    BaseTold(r, b, day, stage, nativeId, c.kind, identity, owner);
    StillFromRead(r, b, day, stage, nativeId, base, ChildRecord(r, b, day, c, stage, "component." + stage));
  }

  lemma PluginStages(r: Rules, b: PluginBody, day: int)
    ensures forall record :: record in PluginLifecycle(r, b, day) ==>
      exists stage :: PluginReaches(b, stage) && TellsPlugin(r, b, day, stage, record)
    ensures forall stage :: PluginReaches(b, stage) ==>
      exists record :: record in PluginLifecycle(r, b, day) && TellsPlugin(r, b, day, stage, record)
  {
    hide PluginRecord, TellsPlugin;
    assert "component." + "requested" == "component.requested" && "component." + "installed" == "component.installed";
    assert "component." + "enabled" == "component.enabled";
    PluginTold(r, b, day, "requested");
    PluginTold(r, b, day, "installed");
    PluginTold(r, b, day, "enabled");
    assert PluginReaches(b, "requested");
    assert b.installed ==> PluginReaches(b, "installed");
    assert b.enabled ==> PluginReaches(b, "enabled");
  }

  lemma ChildStages(r: Rules, b: PluginBody, day: int, c: Child)
    ensures forall record :: record in ChildLifecycle(r, b, day, c) ==>
      exists stage :: ChildReaches(b, c, stage) && TellsChild(r, b, day, c, stage, record)
    ensures forall stage :: ChildReaches(b, c, stage) ==>
      exists record :: record in ChildLifecycle(r, b, day, c) && TellsChild(r, b, day, c, stage, record)
  {
    hide ChildRecord, TellsChild;
    assert "component." + "installed" == "component.installed" && "component." + "enabled" == "component.enabled";
    ChildTold(r, b, day, c, "installed");
    ChildTold(r, b, day, c, "enabled");
    assert b.installed ==> ChildReaches(b, c, "installed");
    assert b.enabled && c.enabled ==> ChildReaches(b, c, "enabled");
  }

  /** The four kinds of children: a skill as enabled as it says, the others always. */
  predicate IsChild(b: PluginBody, c: Child)
  {
    || (c.kind == "skill" && ReadSkill(c.name, c.enabled) in b.skills)
    || (c.enabled && ((c.kind == "mcp" && c.name in b.servers) || (c.kind == "hook" && c.name in b.hooks)
                      || (c.kind == "app" && c.name in b.apps)))
  }

  lemma ChildrenAreBodies(r: Rules, b: PluginBody)
    ensures forall c :: c in Children(r, b) ==> IsChild(b, c)
    ensures forall c :: IsChild(b, c) ==>
      exists d :: d in Children(r, b) && d.kind == c.kind && d.name == c.name && d.enabled == c.enabled
  {
    hide SkillChildren, NamedChildren;
    var skills, servers := SkillChildren(r, b.skills), NamedChildren(r, "mcp", b.servers);
    var hooks, apps := NamedChildren(r, "hook", b.hooks), NamedChildren(r, "app", b.apps);
    var all := Children(r, b);
    forall c | c in all ensures IsChild(b, c) {
      if c in skills { SkillChild(r, b.skills, c); }
      else if c in servers { NamedChildOf(r, "mcp", b.servers, c); }
      else if c in hooks { NamedChildOf(r, "hook", b.hooks, c); }
      else { NamedChildOf(r, "app", b.apps, c); }
    }
    forall c | IsChild(b, c)
      ensures exists d :: d in all && d.kind == c.kind && d.name == c.name && d.enabled == c.enabled
    {
      var d;
      if c.kind == "skill" { d := ChildOfSkill(r, b.skills, ReadSkill(c.name, c.enabled)); assert d in skills; }
      else if c.kind == "mcp" { d := ChildOfName(r, "mcp", b.servers, c.name); assert d in servers; }
      else if c.kind == "hook" { d := ChildOfName(r, "hook", b.hooks, c.name); assert d in hooks; }
      else { d := ChildOfName(r, "app", b.apps, c.name); assert d in apps; }
      assert d in all;
    }
  }

  lemma SkillChild(r: Rules, skills: seq<ReadSkill>, c: Child)
    requires c in SkillChildren(r, skills)
    ensures c.kind == "skill" && ReadSkill(c.name, c.enabled) in skills
  {
    var i :| 0 <= i < |skills| && SkillChildren(r, skills)[i] == c;
    assert skills[i] == ReadSkill(c.name, c.enabled);
  }

  lemma NamedChildOf(r: Rules, kind: string, names: seq<string>, c: Child)
    requires c in NamedChildren(r, kind, names)
    ensures c.kind == kind && c.name in names && c.enabled
  {
    var i :| 0 <= i < |names| && NamedChildren(r, kind, names)[i] == c;
    assert names[i] == c.name;
  }

  lemma ChildOfSkill(r: Rules, skills: seq<ReadSkill>, s: ReadSkill) returns (c: Child)
    requires s in skills
    ensures c in SkillChildren(r, skills) && c.kind == "skill" && c.name == s.name && c.enabled == s.enabled
  {
    var i :| 0 <= i < |skills| && skills[i] == s;
    c := SkillChildren(r, skills)[i];
  }

  lemma ChildOfName(r: Rules, kind: string, names: seq<string>, name: string) returns (c: Child)
    requires name in names
    ensures c in NamedChildren(r, kind, names) && c.kind == kind && c.name == name && c.enabled
  {
    var i :| 0 <= i < |names| && names[i] == name;
    c := NamedChildren(r, kind, names)[i];
  }

  ghost predicate ChildTells(r: Rules, b: PluginBody, day: int, c: Child, record: Record)
  {
    exists stage :: ChildReaches(b, c, stage) && TellsChild(r, b, day, c, stage, record)
  }

  ghost predicate PluginTells(r: Rules, b: PluginBody, day: int, record: Record)
  {
    exists stage :: PluginReaches(b, stage) && TellsPlugin(r, b, day, stage, record)
  }

  ghost predicate StageRecorded(r: Rules, b: PluginBody, day: int, c: Child, stage: string, records: seq<Record>)
  {
    exists record :: record in records && TellsChild(r, b, day, c, stage, record)
  }

  /** A read reports of the plugin and of each child exactly the stages they reach: every record is
      one of those, and each stage reached has its record. */
  lemma LifecyclesReported(r: Rules, day: int, b: PluginBody)
    requires ReadProjection(r, day, Some(b)).Projected?
    ensures var records := ReadProjection(r, day, Some(b)).records;
      && (forall record :: record in records ==>
            PluginTells(r, b, day, record)
            || exists c :: c in Children(r, b) && IsChild(b, c) && ChildTells(r, b, day, c, record))
      && (forall stage :: PluginReaches(b, stage) ==>
          exists record :: record in records && TellsPlugin(r, b, day, stage, record))
      && (forall c, stage :: c in Children(r, b) && ChildReaches(b, c, stage) ==>
          StageRecorded(r, b, day, c, stage, records))
  {
    hide Children, IsChild, PluginLifecycle, Lifecycles, TellsPlugin, TellsChild, PluginReaches, ChildReaches;
    hide ChildTells;
    hide StageRecorded;
    var plugin, children := PluginLifecycle(r, b, day), Lifecycles(r, b, day, Children(r, b));
    assert ReadProjection(r, day, Some(b)).records == plugin + children;
    ChildrenAreBodies(r, b);
    PluginStages(r, b, day);
    forall record | record in children
      ensures exists c :: c in Children(r, b) && ChildTells(r, b, day, c, record)
    {
      ChildRecordTells(r, b, day, Children(r, b), record);
    }
    forall c, stage | c in Children(r, b) && ChildReaches(b, c, stage)
      ensures StageRecorded(r, b, day, c, stage, plugin + children)
    {
      StageIsRecorded(r, b, day, Children(r, b), c, stage, plugin);
    }
  }

  lemma ChildRecordTells(r: Rules, b: PluginBody, day: int, children: seq<Child>, record: Record)
    requires record in Lifecycles(r, b, day, children)
    ensures exists c :: c in children && ChildTells(r, b, day, c, record)
  {
    hide ChildLifecycle, Lifecycles, TellsChild, ChildReaches;
    LifecyclesMember(r, b, day, children, record);
    var c :| c in children && record in ChildLifecycle(r, b, day, c);
    ChildStages(r, b, day, c);
  }

  lemma StageIsRecorded(r: Rules, b: PluginBody, day: int, children: seq<Child>, c: Child, stage: string,
                        before: seq<Record>)
    requires c in children && ChildReaches(b, c, stage)
    ensures StageRecorded(r, b, day, c, stage, before + Lifecycles(r, b, day, children))
  {
    hide ChildLifecycle, Lifecycles, TellsChild, ChildReaches;
    ChildStages(r, b, day, c);
    var record :| record in ChildLifecycle(r, b, day, c) && TellsChild(r, b, day, c, stage, record);
    LifecyclesHold(r, b, day, children, c, record);
    assert record in before + Lifecycles(r, b, day, children);
  }

  lemma {:induction false} LifecyclesHold(r: Rules, b: PluginBody, day: int, children: seq<Child>, c: Child,
                                          record: Record)
    requires c in children && record in ChildLifecycle(r, b, day, c)
    ensures record in Lifecycles(r, b, day, children)
  {
    hide ChildLifecycle;
    var n := |children| - 1;
    assert children == children[..n] + [children[n]];
    if c in children[..n] { LifecyclesHold(r, b, day, children[..n], c, record); }
  }
}
