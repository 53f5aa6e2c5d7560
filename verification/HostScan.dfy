/** ScanHostInventory (internal/claudeadapter/inventoryscan.go): settings, skill roots and plugin
    cache assembled into the input of the graph builder. */
module HostScan {
  import opened Ordering
  import opened CoverageGaps
  import opened InventoryTypes
  import opened InventoryGraph
  import opened HostTree
  import opened SkillScan
  import opened BundleScan
  import opened CacheScan
  import opened PluginMerge

  /** What is scanned: what can be read, where the agent keeps its state, and whose it is. */
  datatype ScanTarget = ScanTarget(w: World, state: Path, installation: string)

  // ---------- settings.json ----------

  function SettingsPath(t: ScanTarget): Path { t.state + ["settings.json"] }

  /** A malformed file is skipped, not guessed at. */
  function SettingsOf(t: ScanTarget): Option<Settings>
  {
    match t.w.host.read(SettingsPath(t))
    case Content(text, _) => t.w.host.settings(text)
    case _ => None
  }

  function SettingsGaps(t: ScanTarget): Tally
  {
    if t.w.host.read(SettingsPath(t)).ReadRefused? then Added(map[], RootGap(t.w.host, SettingsPath(t))) else map[]
  }

  function ConfiguredPlugin(t: ScanTarget, name: string, enabled: bool): Plugin
  {
    Plugin(name, "", SCOPE_USER, false, "", if enabled then t.installation else "", t.w.host.pseudonym(SettingsPath(t)),
           t.w.hex(["plugin-config", name, BoolText(enabled)]), [], [], [], [], [])
  }

  function NamedServer(t: ScanTarget, name: string, enabled: bool): ServerDescriptor
  {
    McpServer(name, SCOPE_USER, enabled, [], t.w.host.pseudonym(SettingsPath(t)),
              t.w.hex(["mcp-server-config", name, BoolText(enabled)]))
  }

  predicate ServerEnabled(servers: map<string, bool>, name: string)
  {
    !(name in servers && servers[name])
  }

  function ConfiguredServer(t: ScanTarget, servers: map<string, bool>): string -> ServerDescriptor
  {
    (name: string) => NamedServer(t, name, ServerEnabled(servers, name))
  }

  /** At most 256 names of each key are considered, in byte order. */
  ghost function Considered(names: set<string>): seq<string>
  {
    First(MAX_SCANNED_ENTRIES, KeyList(names))
  }

  ghost function Seed(t: ScanTarget): Configured
  {
    match SettingsOf(t)
    case None => map[]
    case Some(s) => (map name | name in Considered(s.enabledPlugins.Keys) && name in s.enabledPlugins ::
      ConfiguredPlugin(t, name, s.enabledPlugins[name]))
  }

  ghost function ServersOf(t: ScanTarget): seq<ServerDescriptor>
  {
    match SettingsOf(t)
    case None => []
    case Some(s) => Map(ConfiguredServer(t, s.servers), Considered(s.servers.Keys))
  }

  // ---------- skill roots ----------

  const SCOPES: seq<string> := ["user", "repository", "admin", "system"]

  predicate Reserved(name: string) { name in SCOPES }

  function PersonalRoot(t: ScanTarget): Path { t.state + ["skills"] }

  /** The four documented roots are named after their scopes. */
  function ScopeRoot(t: ScanTarget, scope: string): Path { PersonalRoot(t) + [scope] }

  function ScopeScan(t: ScanTarget, scope: string): Scan { ScanOf(t.w, ScopeRoot(t, scope), scope) }

  function PersonalScan(t: ScanTarget): Scan { ScanOf(t.w, PersonalRoot(t), SCOPE_USER) }

  function Unreserved(skills: seq<SkillDescriptor>): seq<SkillDescriptor>
  {
    if skills == [] then []
    else
      var before, s := Unreserved(skills[..|skills| - 1]), skills[|skills| - 1];
      if Reserved(s.name) then before else before + [s]
  }

  function ScopeSkills(t: ScanTarget, scopes: seq<string>): seq<SkillDescriptor>
  {
    if scopes == [] then []
    else ScopeSkills(t, scopes[..|scopes| - 1]) + ScopeScan(t, scopes[|scopes| - 1]).skills
  }

  function ScopeGaps(t: ScanTarget, scopes: seq<string>): Tally
  {
    if scopes == [] then SettingsGaps(t)
    else Merged(ScopeGaps(t, scopes[..|scopes| - 1]), ScopeScan(t, scopes[|scopes| - 1]).gaps)
  }

  function SkillsOf(t: ScanTarget): seq<SkillDescriptor>
  {
    ScopeSkills(t, SCOPES) + Unreserved(PersonalScan(t).skills)
  }

  // ---------- plugin cache ----------

  ghost function CacheAt(t: ScanTarget): Cache { CacheOf(t.w, t.state) }

  function ActiveOf(t: ScanTarget): map<string, string>
  {
    match t.w.host.read(t.state + ["plugins", "installed_plugins.json"])
    case Content(text, false) =>
      (match t.w.host.installed(text)
       case None => map[]
       case Some(plugins) => FirstVersions(plugins))
    case _ => map[]
  }

  function FirstVersions(plugins: map<string, seq<string>>): map<string, string>
  {
    map name | name in plugins && plugins[name] != [] && plugins[name][0] != "" :: plugins[name][0]
  }

  ghost function GapsAt(t: ScanTarget): Tally
  {
    Merged(Merged(ScopeGaps(t, SCOPES), PersonalScan(t).gaps), CacheAt(t).gaps)
  }

  function Lookup(configured: Configured): string -> Plugin
  {
    (name: string) => if name in configured then configured[name]
                      else Plugin("", "", "", false, "", "", "", "", [], [], [], [], [])
  }

  ghost function PluginBag(now: Configured, extra: seq<Plugin>): multiset<Plugin>
  {
    multiset(Map(Lookup(now), KeyList(now.Keys))) + multiset(extra)
  }

  predicate PluginLeq(p: Plugin, q: Plugin)
  {
    if p.name == q.name then StringLeq(p.version, q.version) else StringLeq(p.name, q.name)
  }

  predicate MarketLeq(m: Marketplace, n: Marketplace) { StringLeq(m.name, n.name) }

  ghost predicate MergedInto(t: ScanTarget, now: Configured, extra: seq<Plugin>, plugins: seq<Plugin>)
  {
    && MergeOutcome(t.w.hex, Seed(t), now, CacheAt(t).candidates, ActiveOf(t), extra)
    && multiset(plugins) == PluginBag(now, extra)
  }

  /** What a completed scan must return. */
  ghost predicate IsScan(t: ScanTarget, input: Input)
  {
    && input.installation == t.installation
    && input.skills == SkillsOf(t)
    && input.servers == ServersOf(t)
    && input.commands == [] && input.subagents == [] && input.hooks == [] && input.targets == []
    && multiset(input.marketplaces) == multiset(CacheAt(t).marketplaces) && Ordered(MarketLeq, input.marketplaces)
    && Ordered(PluginLeq, input.plugins)
    && (exists now, extra :: MergedInto(t, now, extra, input.plugins))
    && input.gaps == GapsAt(t)
  }

  /** Some part of the state root was really looked at. */
  ghost predicate Observed(t: ScanTarget)
  {
    SettingsOf(t).Some? || (exists scope :: scope in SCOPES && ScopeScan(t, scope).observed)
    || PersonalScan(t).observed || CacheAt(t).observed
  }

  // ---------- the source's steps ----------

  lemma ConsideredMembers(keys: set<string>)
    ensures NoDuplicates(Considered(keys)) && forall name :: name in Considered(keys) ==> name in keys
    ensures |keys| <= MAX_SCANNED_ENTRIES ==> forall name :: name in keys <==> name in Considered(keys)
  {
    hide KeyList;
    KeyListIs(keys);
    var all := KeyList(keys);
    if |keys| <= MAX_SCANNED_ENTRIES {
      SetSize(all, keys);
    }
  }

  lemma {:induction false} SetSize(s: seq<string>, keys: set<string>)
    requires NoDuplicates(s) && forall x :: x in s <==> x in keys
    ensures |s| == |keys|
    decreases |s|
  {
    if s == [] {
      assert keys == {};
    } else {
      var n := |s| - 1;
      assert s == s[..n] + [s[n]];
      SetSize(s[..n], keys - {s[n]});
      assert keys == (keys - {s[n]}) + {s[n]};
    }
  }

  method SeedPlugins(t: ScanTarget, settings: Settings) returns (configured: Configured)
    requires SettingsOf(t) == Some(settings)
    ensures configured == Seed(t)
  {
    hide KeyList, ConfiguredPlugin;
    var names := FirstSorted(settings.enabledPlugins.Keys, MAX_SCANNED_ENTRIES);
    ConsideredMembers(settings.enabledPlugins.Keys);
    configured := map[];
    for i := 0 to |names|
      invariant configured.Keys == Members(names[..i])
      invariant forall name :: name in configured ==>
        name in settings.enabledPlugins && configured[name] == ConfiguredPlugin(t, name, settings.enabledPlugins[name])
    {
      assert names[..i + 1] == names[..i] + [names[i]];
      assert names[i] in names;
      configured := configured[names[i] := ConfiguredPlugin(t, names[i], settings.enabledPlugins[names[i]])];
    }
    assert names[..|names|] == names;
    assert configured.Keys == Seed(t).Keys;
  }

  method SeedServers(t: ScanTarget, settings: Settings) returns (servers: seq<ServerDescriptor>)
    requires SettingsOf(t) == Some(settings)
    ensures servers == ServersOf(t)
  {
    hide KeyList, ConfiguredServer;
    var names := FirstSorted(settings.servers.Keys, MAX_SCANNED_ENTRIES);
    servers := [];
    for i := 0 to |names|
      invariant servers == Map(ConfiguredServer(t, settings.servers), names[..i])
    {
      assert names[..i + 1] == names[..i] + [names[i]];
      servers := servers + [ConfiguredServer(t, settings.servers)(names[i])];
    }
    assert names[..|names|] == names;
  }

  method ReadActiveVersions(t: ScanTarget) returns (active: map<string, string>)
    ensures active == ActiveOf(t)
  {
    active := map[];
    match t.w.host.read(t.state + ["plugins", "installed_plugins.json"]) {
      case Content(text, truncated) =>
        if truncated { return; }
        match t.w.host.installed(text) {
          case None => return;
          case Some(plugins) =>
            var rest := plugins.Keys;
            while rest != {}
              invariant rest <= plugins.Keys
              invariant active ==
                map name | name in FirstVersions(plugins) && name !in rest :: FirstVersions(plugins)[name]
              decreases rest
            {
              var name :| name in rest;
              rest := rest - {name};
              if plugins[name] == [] || plugins[name][0] == "" { continue; }
              active := active[name := plugins[name][0]];
            }
        }
      case _ => return;
    }
  }

  method DropReserved(skills: seq<SkillDescriptor>) returns (kept: seq<SkillDescriptor>)
    ensures kept == Unreserved(skills)
  {
    kept := [];
    for i := 0 to |skills|
      invariant kept == Unreserved(skills[..i])
    {
      assert skills[..i + 1][..i] == skills[..i];
      if Reserved(skills[i].name) { continue; }
      kept := kept + [skills[i]];
    }
    assert skills[..|skills|] == skills;
  }

  method ScanSkillRoots(t: ScanTarget, gaps: Gaps) returns (skills: seq<SkillDescriptor>, scanned: bool)
    requires ValidHost(t.w.host) && gaps.tally == SettingsGaps(t)
    modifies gaps
    ensures gaps.tally == ScopeGaps(t, SCOPES) && skills == ScopeSkills(t, SCOPES)
    ensures scanned <==> exists scope :: scope in SCOPES && ScopeScan(t, scope).observed
  {
    hide ScanOf, ValidHost, Merged, SettingsGaps;
    var scopes := SCOPES;
    skills, scanned := [], false;
    for i := 0 to |scopes|
      invariant gaps.tally == ScopeGaps(t, scopes[..i]) && skills == ScopeSkills(t, scopes[..i])
      invariant scanned <==> exists k :: 0 <= k < i && ScopeScan(t, scopes[k]).observed
    {
      assert scopes[..i + 1][..i] == scopes[..i];
      var found, missed, observed := ScanSkillRoot(t.w, ScopeRoot(t, scopes[i]), scopes[i]);
      if observed { scanned := true; }
      gaps.Merge(missed);
      skills := skills + found;
    }
    assert scopes[..|scopes|] == scopes;
  }

  /** The map's entries and the cached-only candidates, in name and version order. */
  method ListPlugins(configured: Configured, extra: seq<Plugin>) returns (plugins: seq<Plugin>)
    ensures multiset(plugins) == PluginBag(configured, extra) && Ordered(PluginLeq, plugins)
  {
    hide KeyList;
    var names := ListSet(configured.Keys);
    plugins := [];
    for i := 0 to |names|
      invariant plugins == Map(Lookup(configured), names[..i])
    {
      assert names[..i + 1] == names[..i] + [names[i]] && names[i] in names;
      plugins := plugins + [configured[names[i]]];
    }
    assert names[..|names|] == names;
    KeyListIs(configured.Keys);
    NoDuplicatesSameBag(names, KeyList(configured.Keys));
    MapBag(Lookup(configured), names, KeyList(configured.Keys));
    PluginLeqIsOrder();
    plugins := SortBy(plugins + extra, PluginLeq);
  }

  lemma PluginLeqIsOrder()
    ensures Total(PluginLeq) && Transitive(PluginLeq)
  {
    forall p, q ensures PluginLeq(p, q) || PluginLeq(q, p) {
      StringLeqTotal(p.name, q.name);
      StringLeqTotal(p.version, q.version);
    }
    forall p, q, r | PluginLeq(p, q) && PluginLeq(q, r) ensures PluginLeq(p, r) {
      if p.name == q.name == r.name {
        StringLeqTransitive(p.version, q.version, r.version);
      } else if p.name != q.name && q.name != r.name {
        StringLeqTransitive(p.name, q.name, r.name);
        if p.name == r.name { StringLeqAntisymmetric(p.name, q.name); }
      }
    }
  }

  lemma MarketLeqIsOrder()
    ensures Total(MarketLeq) && Transitive(MarketLeq)
  {
    forall m, n ensures MarketLeq(m, n) || MarketLeq(n, m) { StringLeqTotal(m.name, n.name); }
    forall m, n, k | MarketLeq(m, n) && MarketLeq(n, k)
      ensures MarketLeq(m, k)
    {
      StringLeqTransitive(m.name, n.name, k.name);
    }
  }

  lemma SeedKeyed(t: ScanTarget)
    ensures KeyedByName(Seed(t))
  {
    hide Considered;
  }

  /** possible says that a host view was given and the state root is an absolute path. */
  method ScanHostInventory(t: ScanTarget, possible: bool) returns (input: Input, scanned: bool)
    requires ValidHost(t.w.host)
    ensures possible ==> IsScan(t, input) && (scanned <==> Observed(t))
    ensures !possible ==> !scanned && input == Input(t.installation, [], [], [], [], [], [], [], [], map[])
  {
    hide ScanOf, CacheOf, ValidHost, Merged, Considered, ConfiguredPlugin, ConfiguredServer, MergeOutcome;
    hide ScopeGaps, ScopeSkills, PluginLeq, MarketLeq, PluginBag;
    if !possible { return Input(t.installation, [], [], [], [], [], [], [], [], map[]), false; }
    var gaps := new Gaps();
    scanned := false;
    var configured: Configured := map[];
    var servers: seq<ServerDescriptor> := [];
    match t.w.host.read(SettingsPath(t)) {
      case ReadRefused => gaps.Add(RootGap(t.w.host, SettingsPath(t)));
      case ReadMissing =>
      case Content(text, _) =>
        var decoded := t.w.host.settings(text);
        if decoded.Some? {
          scanned := true;
          configured := SeedPlugins(t, decoded.value);
          servers := SeedServers(t, decoded.value);
        }
    }
    var skills, rootsObserved := ScanSkillRoots(t, gaps);
    var personal, personalGaps, personalObserved := ScanSkillRoot(t.w, PersonalRoot(t), SCOPE_USER);
    gaps.Merge(personalGaps);
    personal := DropReserved(personal);
    var marketplaces, candidates, cacheGaps, cacheObserved := ScanPluginCache(t.w, t.state);
    gaps.Merge(cacheGaps);
    scanned := scanned || rootsObserved || personalObserved || cacheObserved;
    var active := ReadActiveVersions(t);
    var registry := new Registry(configured);
    SeedKeyed(t);
    var extra := registry.MergeCandidates(t.w.hex, candidates, active);
    var plugins := ListPlugins(registry.configured, extra);
    MarketLeqIsOrder();
    marketplaces := SortBy(marketplaces, MarketLeq);
    assert MergedInto(t, registry.configured, extra, plugins);
    input := Input(t.installation, skills + personal, [], [], [], servers, plugins, marketplaces, [], gaps.tally);
  }
}
