/** What a scanned input says of the host, field by field: the plugins and servers of the settings, the
    cached versions with their children, and which version a configured plugin takes its contents from. */
module ScanContents {
  import opened Ordering
  import opened CoverageGaps
  import opened InventoryTypes
  import opened InventoryGraph
  import opened GraphIdentity
  import opened HostTree
  import opened Visits
  import opened SkillScan
  import opened BundleScan
  import opened ScanCauses
  import opened CacheScan
  import opened CacheBounds
  import opened PluginMerge
  import opened HostScan
  import opened ScanKeys
  import opened GraphProperties
  import opened GraphContents
  import opened InventoryPipeline

  // ---------- names that are considered ----------

  /** Fewer than so many of the keys come before the name in byte order. */
  ghost predicate AmongFirst(keys: set<string>, limit: nat, name: string)
  {
    name in keys && |set k | k in keys && k != name && StringLeq(k, name)| < limit
  }

  lemma {:induction false} SetOfList(s: seq<string>)
    requires NoDuplicates(s)
    ensures |set x | x in s| == |s|
  {
    if s != [] {
      var n := |s| - 1;
      SetOfList(s[..n]);
      assert (set x | x in s) == (set x | x in s[..n]) + {s[n]};
    }
  }

  /** A list of keys cut at a limit holds the keys that come first. */
  lemma FirstMeans(keys: set<string>, limit: nat, name: string)
    ensures name in First(limit, KeyList(keys)) <==> AmongFirst(keys, limit, name)
  {
    hide KeyList;
    var all := KeyList(keys);
    KeyListIs(keys);
    if name in keys {
      var i :| 0 <= i < |all| && all[i] == name;
      var before := set x | x in all[..i];
      forall k ensures k in before <==> k in keys && k != name && StringLeq(k, name) {
        if k in keys {
          var j :| 0 <= j < |all| && all[j] == k;
          if j < i { assert all[..i][j] == k; }
          if j > i && StringLeq(k, name) { StringLeqAntisymmetric(name, k); }
          if k in before { var m :| 0 <= m < i && all[..i][m] == k; assert all[m] == all[j]; }
        }
      }
      assert before == set k | k in keys && k != name && StringLeq(k, name);
      SetOfList(all[..i]);
      if i < limit { assert First(limit, all)[i] == name; }
      if name in First(limit, all) {
        var j :| 0 <= j < |First(limit, all)| && First(limit, all)[j] == name;
        assert all[j] == name;
      }
    }
  }

  // ---------- settings ----------

  /** The settings file lists the plugin among its first 256, with this flag. */
  ghost predicate ListedPlugin(t: ScanTarget, name: string, enabled: bool)
  {
    && t.w.host.read(t.state + ["settings.json"]).Content?
    && var settings := t.w.host.settings(t.w.host.read(t.state + ["settings.json"]).text);
       && settings.Some? && AmongFirst(settings.value.enabledPlugins.Keys, 256, name)
       && settings.value.enabledPlugins[name] == enabled
  }

  ghost predicate ListedServer(t: ScanTarget, name: string, disabled: bool)
  {
    && t.w.host.read(t.state + ["settings.json"]).Content?
    && var settings := t.w.host.settings(t.w.host.read(t.state + ["settings.json"]).text);
       && settings.Some? && AmongFirst(settings.value.servers.Keys, 256, name)
       && settings.value.servers[name] == disabled
  }

  function Flag(b: bool): string { if b then "true" else "false" }

  lemma SeedMeans(t: ScanTarget, name: string)
    ensures name in Seed(t) <==> exists enabled :: ListedPlugin(t, name, enabled)
    ensures name in Seed(t) ==>
      var p := Seed(t)[name];
      exists enabled ::
        && ListedPlugin(t, name, enabled) && p.name == name && p.version == "" && p.scope == "user" && !p.cachedOnly
        && p.fromMarketplace == "" && p.activeFor == (if enabled then t.installation else "")
        && p.path == t.w.host.pseudonym(t.state + ["settings.json"]) && Components(p) == []
        && p.fingerprint == t.w.hex(["plugin-config", name, Flag(enabled)])
  {
    hide AmongFirst, KeyList;
    if SettingsOf(t).Some? {
      var s := SettingsOf(t).value;
      FirstMeans(s.enabledPlugins.Keys, 256, name);
      if name in s.enabledPlugins { assert ListedPlugin(t, name, s.enabledPlugins[name]) <==> name in Seed(t); }
      FirstIsOf(s.enabledPlugins.Keys, 256, name);
    }
  }

  lemma FirstIsOf(keys: set<string>, limit: nat, name: string)
    ensures AmongFirst(keys, limit, name) ==> name in keys
  {
  }

  predicate ShowsServer(t: ScanTarget, name: string, disabled: bool, c: Component)
  {
    && c.McpServer? && c.name == name && c.scope == "user" && c.enabled == !disabled && c.tools == []
    && c.path == t.w.host.pseudonym(t.state + ["settings.json"])
    && c.fingerprint == t.w.hex(["mcp-server-config", name, Flag(!disabled)])
  }

  /** The standalone servers are those the settings list. */
  lemma ServersMean(t: ScanTarget, c: ServerDescriptor)
    ensures c in ServersOf(t) <==>
      exists name, disabled :: ListedServer(t, name, disabled) && ShowsServer(t, name, disabled, c)
  {
    hide AmongFirst, KeyList, ConfiguredServer;
    if SettingsOf(t).Some? {
      var s := SettingsOf(t).value;
      var names := Considered(s.servers.Keys);
      forall name
        ensures name in names <==> AmongFirst(s.servers.Keys, 256, name)
        ensures name in names ==> name in s.servers
      {
        FirstMeans(s.servers.Keys, 256, name);
        FirstIsOf(s.servers.Keys, 256, name);
      }
      forall name | name in s.servers
        ensures ConfiguredServer(t, s.servers)(name) == c <==> ShowsServer(t, name, s.servers[name], c)
      {
        ServerShown(t, s.servers, name, c);
      }
      MapMember(ConfiguredServer(t, s.servers), names, c);
    }
  }

  lemma ServerShown(t: ScanTarget, servers: map<string, bool>, name: string, c: ServerDescriptor)
    requires name in servers
    ensures ConfiguredServer(t, servers)(name) == c <==> ShowsServer(t, name, servers[name], c)
  {
  }

  /** A server of the settings is joined to the installation by an enablement edge exactly when its
      disabled flag is not set. */
  lemma ServerEnablement(t: ScanTarget, input: Input, now: int, s: Snapshot, name: string, disabled: bool)
      returns (c: Component)
    requires ValidTarget(t) && IsScan(t, input) && IsSnapshot(t.w.hex, input, now, s) && ListedServer(t, name, disabled)
    ensures c in input.servers && ShowsServer(t, name, disabled, c)
    ensures var g := Context(t.w.hex, input.installation);
      Linked(s.edges, EnabledFor, ComponentId(g, c, ""), InstallationId(g)) <==> !disabled
  {
    hide ListedServer, IsSnapshot, DistinctKeys, ValidHost, Injective, ComponentId, Linked, SkillsOf;
    hide ServersOf, CacheOf;
    hide MergedInto, GapsAt;
    ScannedKeysDistinct(t, input);
    EnabledExactly(t.w.hex, input, now, s);
    var made := McpServer(name, "user", !disabled, [], t.w.host.pseudonym(t.state + ["settings.json"]),
                          t.w.hex(["mcp-server-config", name, Flag(!disabled)]));
    ServersMean(t, made);
    c := made;
    assert ShowsServer(t, name, disabled, made);
    assert StandsAlone(input, c) && (Allows(c) <==> !disabled);
  }

  // ---------- one cached version ----------

  /** The composite name: the manifest's own name if it declares one, the folder's otherwise. */
  predicate CompositeName(w: World, dir: Path, p: Place, name: string)
  {
    var path := dir + [".claude-plugin"] + ["plugin.json"];
    var declared := w.host.manifestName(WholeText(w, path));
    if Whole(w, path) && declared.Some? && declared.value != "" then name == declared.value + "@" + p.market
    else name == p.folder + "@" + p.market
  }

  predicate ShowsItem(c: Component, x: Item)
  {
    c.name == x.name && c.scope == "plugin_cache" && c.enabled && c.path == x.path && c.fingerprint == x.fingerprint
  }

  /** Hooks of a bundle are never trusted. */
  predicate ShowsHook(w: World, path: Path, event: string, c: Component)
  {
    && c.Hook? && c.name == event && c.scope == "plugin_cache" && c.enabled && !c.trusted
    && c.path == w.host.pseudonym(path) && c.fingerprint == w.hex(["bundled-hook", event, WholeText(w, path)])
  }

  /** A declared server with the first 128 of its tools in byte order. */
  ghost predicate ShowsDeclared(w: World, path: Path, name: string, d: Declaration, c: Component)
  {
    && c.McpServer? && c.name == name && c.scope == "plugin_cache" && c.enabled == !d.disabled
    && c.path == w.host.pseudonym(path) && c.fingerprint == w.hex(["bundled-mcp", name, WholeText(w, path)])
    && FirstTools(c.tools, d.tools)
  }

  ghost predicate FirstTools(some: seq<string>, tools: seq<string>)
  {
    exists sorted :: Ordered(StringLeq, sorted) && multiset(sorted) == multiset(tools) && some == First(128, sorted)
  }

  predicate ItemShown(items: seq<Item>, c: Component)
  {
    exists x :: x in items && ShowsItem(c, x)
  }

  ghost predicate ShowsChildren(w: World, dir: Path, c: Plugin)
  {
    && c.skills == ScanOf(w, dir + ["skills"], "plugin_cache").skills
    && (forall d :: d in c.subagents <==> d.Subagent? && ItemShown(ItemsOf(w, dir + ["agents"]).items, d))
    && (forall d :: d in c.commands <==> d.Command? && ItemShown(ItemsOf(w, dir + ["commands"]).items, d))
    && (forall d :: d in c.hooks <==> IsListedHook(w, dir + ["hooks", "hooks.json"], d))
    && (forall name, d :: ServerListed(w, dir + [".mcp.json"], name, d) ==>
          exists s :: s in c.servers && ShowsDeclared(w, dir + [".mcp.json"], name, d, s))
    && (forall s :: s in c.servers ==>
          exists name, d ::
            ServerListed(w, dir + [".mcp.json"], name, d) && ShowsDeclared(w, dir + [".mcp.json"], name, d, s))
  }

  ghost predicate IsListedHook(w: World, path: Path, c: Component)
  {
    exists event :: HookListed(w, path, event) && ShowsHook(w, path, event, c)
  }

  ghost predicate HookListed(w: World, path: Path, event: string)
  {
    && Whole(w, path) && w.host.hookEvents(WholeText(w, path)).Some?
    && AmongFirst(w.host.hookEvents(WholeText(w, path)).value, 256, event)
  }

  ghost predicate ServerListed(w: World, path: Path, name: string, d: Declaration)
  {
    && Whole(w, path) && w.host.declarations(WholeText(w, path)).Some?
    && var declared := w.host.declarations(WholeText(w, path)).value;
       AmongFirst(declared.Keys, 256, name) && declared[name] == d
  }

  predicate ShowsVersion(w: World, root: Path, p: Place, c: Plugin)
  {
    && CompositeName(w, root + [p.market, p.folder, p.version], p, c.name)
    && c.version == p.version && c.scope == "plugin_cache" && !c.cachedOnly && c.fromMarketplace == p.market
    && c.activeFor == "" && c.path == w.host.pseudonym(root + [p.market, p.folder, p.version])
    && c.fingerprint == w.hex(["plugin-cache", c.name, p.version])
  }

  lemma CandidateShows(w: World, root: Path, p: Place)
    ensures ShowsVersion(w, root, p, Candidate(w, root)(p))
    ensures ShowsChildren(w, root + [p.market, p.folder, p.version], Candidate(w, root)(p))
  {
    hide ScanOf, ItemsOf, CommandsOf, AgentsOf, HooksOf, BundledServersOf, HookListed, ServerListed;
    hide ShowsHook, ShowsDeclared, ShowsItem;
    var dir := PlaceDir(root, p);
    assert dir + [".claude-plugin", "plugin.json"] == dir + [".claude-plugin"] + ["plugin.json"];
    ItemChildren(w, dir);
    HookChildren(w, dir);
    ServerChildren(w, dir);
  }

  lemma ItemChildren(w: World, dir: Path)
    ensures forall d: Component :: d in AgentsOf(w, dir) <==>
      d.Subagent? && ItemShown(ItemsOf(w, dir + ["agents"]).items, d)
    ensures forall d: Component :: d in CommandsOf(w, dir) <==>
      d.Command? && ItemShown(ItemsOf(w, dir + ["commands"]).items, d)
  {
    hide ItemsOf, ShowsItem;
    var agents, commands := ItemsOf(w, dir + ["agents"]).items, ItemsOf(w, dir + ["commands"]).items;
    forall x, d: Component
      ensures AgentOf()(x) == d <==> d.Subagent? && ShowsItem(d, x)
      ensures CommandOf()(x) == d <==> d.Command? && ShowsItem(d, x)
    {
      ItemIsShown(x, d);
    }
    forall d: Component ensures d in AgentsOf(w, dir) <==> d.Subagent? && ItemShown(agents, d) {
      MapMember(AgentOf(), agents, d);
    }
    forall d: Component ensures d in CommandsOf(w, dir) <==> d.Command? && ItemShown(commands, d) {
      MapMember(CommandOf(), commands, d);
    }
  }

  lemma ItemIsShown(x: Item, d: Component)
    ensures AgentOf()(x) == d <==> d.Subagent? && ShowsItem(d, x)
    ensures CommandOf()(x) == d <==> d.Command? && ShowsItem(d, x)
  {
  }

  lemma HookChildren(w: World, dir: Path)
    ensures forall d: Component :: d in HooksOf(w, dir) <==> IsListedHook(w, dir + ["hooks", "hooks.json"], d)
  {
    hide AmongFirst, KeyList, MakeHook, ShowsHook;
    var path := HooksPath(dir);
    var decoded := Decoded(w, path, w.host.hookEvents);
    if decoded.Some? {
      var names := First(MAX_BUNDLED, KeyList(decoded.value));
      forall event ensures event in names <==> HookListed(w, path, event) { FirstMeans(decoded.value, 256, event); }
      forall event, d: Component
        ensures MakeHook(w, dir, event) == d <==> ShowsHook(w, path, event, d)
      {
        HookShown(w, dir, event, d);
      }
      forall d: Component
        ensures d in HooksOf(w, dir) <==> exists event :: event in names && MakeHook(w, dir, event) == d
      {
        if event :| event in names && MakeHook(w, dir, event) == d {
          MapMember(HookOf(w, dir), names, MakeHook(w, dir, event));
        }
        if d in HooksOf(w, dir) { MapMember(HookOf(w, dir), names, d); }
      }
    }
  }

  lemma HookShown(w: World, dir: Path, event: string, d: Component)
    ensures MakeHook(w, dir, event) == d <==> ShowsHook(w, HooksPath(dir), event, d)
  {
  }

  lemma ServerChildren(w: World, dir: Path)
    ensures forall name, d :: ServerListed(w, dir + [".mcp.json"], name, d) ==>
      exists s :: s in BundledServersOf(w, dir) && ShowsDeclared(w, dir + [".mcp.json"], name, d, s)
    ensures forall s :: s in BundledServersOf(w, dir) ==>
      exists name, d ::
        ServerListed(w, dir + [".mcp.json"], name, d) && ShowsDeclared(w, dir + [".mcp.json"], name, d, s)
  {
    hide AmongFirst, KeyList, MakeServer, ShowsDeclared, ServerListed, BundledServersOf;
    var path := ServersPath(dir);
    var decoded := Decoded(w, path, w.host.declarations);
    if decoded.Some? {
      DecodedServers(w, dir, decoded.value);
    } else {
      NoServers(w, dir);
    }
  }

  lemma NoServers(w: World, dir: Path)
    requires Decoded(w, ServersPath(dir), w.host.declarations).None?
    ensures BundledServersOf(w, dir) == [] && forall name, d :: !ServerListed(w, ServersPath(dir), name, d)
  {
    hide AmongFirst;
  }

  lemma ListedDeclaration(w: World, dir: Path, declared: map<string, Declaration>, name: string)
    requires Decoded(w, ServersPath(dir), w.host.declarations) == Some(declared)
    ensures name in First(MAX_BUNDLED, KeyList(declared.Keys)) <==>
      ServerListed(w, ServersPath(dir), name, DeclaredAs(declared, name))
    ensures forall d :: ServerListed(w, ServersPath(dir), name, d) ==> d == DeclaredAs(declared, name)
  {
    hide AmongFirst, KeyList;
    FirstMeans(declared.Keys, 256, name);
    FirstIsOf(declared.Keys, 256, name);
  }

  lemma DecodedServers(w: World, dir: Path, declared: map<string, Declaration>)
    requires Decoded(w, ServersPath(dir), w.host.declarations) == Some(declared)
    ensures forall name, d :: ServerListed(w, ServersPath(dir), name, d) ==>
      exists s :: s in BundledServersOf(w, dir) && ShowsDeclared(w, ServersPath(dir), name, d, s)
    ensures forall s :: s in BundledServersOf(w, dir) ==>
      exists name, d :: ServerListed(w, ServersPath(dir), name, d) && ShowsDeclared(w, ServersPath(dir), name, d, s)
  {
    hide AmongFirst, KeyList, MakeServer, ShowsDeclared, ServerListed, Decoded, First;
    var names := First(MAX_BUNDLED, KeyList(declared.Keys));
    forall name, d | ServerListed(w, ServersPath(dir), name, d)
      ensures exists s :: s in BundledServersOf(w, dir) && ShowsDeclared(w, ServersPath(dir), name, d, s)
    {
      ListedDeclaration(w, dir, declared, name);
      DeclaredShown(w, dir, name, d);
      MapMember(ServerOf(w, dir, declared), names, MakeServer(w, dir, name, d));
    }
    forall s | s in BundledServersOf(w, dir)
      ensures exists name, d ::
        ServerListed(w, ServersPath(dir), name, d) && ShowsDeclared(w, ServersPath(dir), name, d, s)
    {
      MapMember(ServerOf(w, dir, declared), names, s);
      var name :| name in names && ServerOf(w, dir, declared)(name) == s;
      ListedDeclaration(w, dir, declared, name);
      DeclaredShown(w, dir, name, DeclaredAs(declared, name));
    }
  }

  lemma DeclaredShown(w: World, dir: Path, name: string, d: Declaration)
    ensures ShowsDeclared(w, ServersPath(dir), name, d, MakeServer(w, dir, name, d))
  {
    hide SortedBy, First;
    StringLeqIsTotalOrder();
    SortedByOrdered(StringLeq, d.tools);
    assert FirstTools(First(MAX_TOOLS, SortStrings(d.tools)), d.tools);
  }

  /** Every candidate is a version directory of the cache as the host has it. */
  lemma CandidatesShow(t: ScanTarget, c: Plugin) returns (p: Place)
    requires ValidHost(t.w.host) && c in CacheAt(t).candidates
    ensures ShowsVersion(t.w, CacheRoot(t.state), p, c)
    ensures ShowsChildren(t.w, CacheRoot(t.state) + [p.market, p.folder, p.version], c)
  {
    hide Candidate, CacheOf, ValidHost, ShowsVersion, ShowsChildren;
    var root := CacheRoot(t.state);
    var places := CandidatePlaces(t);
    var i :| 0 <= i < |places| && Map(Candidate(t.w, root), places)[i] == c;
    p := places[i];
    CandidateShows(t.w, root, p);
  }

  // ---------- which version is folded in ----------

  /** installed_plugins.json records this version first for the name. */
  predicate Pointed(t: ScanTarget, name: string, version: string)
  {
    var path := t.state + ["plugins"] + ["installed_plugins.json"];
    && Whole(t.w, path) && t.w.host.installed(WholeText(t.w, path)).Some?
    && var recorded := t.w.host.installed(WholeText(t.w, path)).value;
       name in recorded && recorded[name] != [] && recorded[name][0] == version && version != ""
  }

  lemma ActiveMeans(t: ScanTarget, name: string, version: string)
    ensures name in ActiveOf(t) && ActiveOf(t)[name] == version <==> Pointed(t, name, version)
  {
    assert t.state + ["plugins", "installed_plugins.json"] == t.state + ["plugins"] + ["installed_plugins.json"];
  }

  /** No other candidate carries its name. */
  ghost predicate OnlyOne(cs: seq<Plugin>, i: nat)
    requires i < |cs|
  {
    forall j :: 0 <= j < |cs| && j != i ==> cs[j].name != cs[i].name
  }

  /** The first candidate of its name with its version. */
  ghost predicate FirstOfVersion(cs: seq<Plugin>, i: nat)
    requires i < |cs|
  {
    forall j :: 0 <= j < i && cs[j].name == cs[i].name ==> cs[j].version != cs[i].version
  }

  lemma {:induction false} GroupPosition(cs: seq<Plugin>, name: string, i: nat)
    requires i < |cs| && cs[i].name == name
    ensures var k := |Group(cs[..i], name)|;
      k < |Group(cs, name)| && Group(cs, name)[k] == cs[i] && Group(cs, name)[..k] == Group(cs[..i], name)
  {
    var n := |cs| - 1;
    if i < n {
      assert cs[..n][..i] == cs[..i];
      GroupPosition(cs[..n], name, i);
    }
  }

  lemma GroupFrom(cs: seq<Plugin>, name: string, k: nat) returns (i: nat)
    requires k < |Group(cs, name)|
    ensures i < |cs| && cs[i].name == name && |Group(cs[..i], name)| == k && cs[i] == Group(cs, name)[k]
  {
    var n := |cs| - 1;
    assert cs == cs[..n] + [cs[n]];
    if k < |Group(cs[..n], name)| {
      i := GroupFrom(cs[..n], name, k);
      assert cs[..n][..i] == cs[..i];
    } else {
      i := n;
    }
  }

  lemma OnlyOneMeans(cs: seq<Plugin>, i: nat)
    requires i < |cs|
    ensures OnlyOne(cs, i) <==> |Group(cs, cs[i].name)| == 1
  {
    hide Group;
    var name := cs[i].name;
    GroupPosition(cs, name, i);
    var k := |Group(cs[..i], name)|;
    if |Group(cs, name)| > 1 {
      var other := GroupFrom(cs, name, if k == 0 then 1 else 0);
      assert other != i && cs[other].name == name;
    }
    if j :| 0 <= j < |cs| && j != i && cs[j].name == name {
      GroupPosition(cs, name, j);
      SamePosition(cs, name, i, j);
      assert |Group(cs, name)| != 1;
    }
  }

  lemma SamePosition(cs: seq<Plugin>, name: string, i: nat, j: nat)
    requires i < |cs| && j < |cs| && i != j && cs[i].name == name && cs[j].name == name
    ensures |Group(cs[..i], name)| != |Group(cs[..j], name)|
  {
    if i < j {
      assert cs[..j][..i] == cs[..i];
      GroupPosition(cs[..j], name, i);
    } else {
      assert cs[..i][..j] == cs[..j];
      GroupPosition(cs[..i], name, j);
    }
  }

  lemma FirstVersionMeans(cs: seq<Plugin>, name: string, version: string, i: nat)
    requires i < |cs| && cs[i].name == name && cs[i].version == version && FirstOfVersion(cs, i)
    ensures FirstVersion(Group(cs, name), version) == |Group(cs[..i], name)| < |Group(cs, name)|
  {
    hide Group;
    GroupPosition(cs, name, i);
    var group, k := Group(cs, name), |Group(cs[..i], name)|;
    forall m | 0 <= m < k ensures group[m].version != version {
      assert group[m] == group[..k][m] && group[m] in Group(cs[..i], name);
      GroupMembers(cs[..i], name);
      var j :| 0 <= j < i && cs[..i][j] == group[m];
    }
  }

  lemma GroupMembers(cs: seq<Plugin>, name: string)
    ensures forall c :: c in Group(cs, name) <==> c in cs && c.name == name
  {
  }

  lemma FirstOfVersionExists(cs: seq<Plugin>, name: string, version: string) returns (i: nat)
    requires exists j :: 0 <= j < |cs| && cs[j].name == name && cs[j].version == version
    ensures i < |cs| && cs[i].name == name && cs[i].version == version && FirstOfVersion(cs, i)
  {
    i :| i < |cs| && cs[i].name == name && cs[i].version == version;
    while !FirstOfVersion(cs, i)
      invariant i < |cs| && cs[i].name == name && cs[i].version == version
      decreases i
    {
      var j :| 0 <= j < i && cs[j].name == cs[i].name && cs[j].version == cs[i].version;
      i := j;
    }
  }

  /** A candidate is the installed one of its name exactly when it is the only one, or there are
      several and it is the first with the version that installed_plugins.json records. */
  lemma InstalledMeans(cs: seq<Plugin>, active: map<string, string>, i: nat)
    requires i < |cs| && NoDuplicates(cs)
    ensures Installed(cs, active, cs[i].name) == Some(cs[i]) <==>
      OnlyOne(cs, i) || (cs[i].name in active && active[cs[i].name] == cs[i].version && FirstOfVersion(cs, i))
  {
    hide Group;
    var name := cs[i].name;
    var group := Group(cs, name);
    OnlyOneMeans(cs, i);
    GroupPosition(cs, name, i);
    var k := |Group(cs[..i], name)|;
    if !OnlyOne(cs, i) && name in active {
      var version := active[name];
      if exists j :: 0 <= j < |cs| && cs[j].name == name && cs[j].version == version {
        var first := FirstOfVersionExists(cs, name, version);
        FirstVersionMeans(cs, name, version, first);
        GroupPosition(cs, name, first);
        assert Installed(cs, active, name) == Some(cs[first]);
        if cs[i].version == version && FirstOfVersion(cs, i) { FirstsAgree(cs, i, first); }
      } else {
        NoneOfVersion(cs, name, version);
      }
    }
  }

  lemma FirstsAgree(cs: seq<Plugin>, i: nat, j: nat)
    requires i < |cs| && j < |cs| && cs[i].name == cs[j].name && cs[i].version == cs[j].version
    requires FirstOfVersion(cs, i) && FirstOfVersion(cs, j)
    ensures i == j
  {
  }

  lemma NoneOfVersion(cs: seq<Plugin>, name: string, version: string)
    requires forall j :: 0 <= j < |cs| && cs[j].name == name ==> cs[j].version != version
    ensures FirstVersion(Group(cs, name), version) == |Group(cs, name)|
  {
    hide Group;
    GroupMembers(cs, name);
    var group := Group(cs, name);
    forall m | 0 <= m < |group| ensures group[m].version != version {
      assert group[m] in group;
      var j :| 0 <= j < |cs| && cs[j] == group[m];
    }
  }

  /** A cached version is folded into a configured plugin exactly when the settings list its name and it
      is the only version of that name, or the first that installed_plugins.json records. */
  lemma FoldedMeans(t: ScanTarget, i: nat)
    requires ValidHost(t.w.host) && i < |CacheAt(t).candidates|
    ensures var cs := CacheAt(t).candidates;
      FoldedIn(t, cs[i]) <==>
        && (exists enabled :: ListedPlugin(t, cs[i].name, enabled))
        && (OnlyOne(cs, i) || (Pointed(t, cs[i].name, cs[i].version) && FirstOfVersion(cs, i)))
  {
    hide CacheOf, Seed, ActiveOf, Installed, ListedPlugin, Pointed, ValidHost;
    var cs := CacheAt(t).candidates;
    CandidatePathsDistinct(t);
    NoDuplicatesFromKeys(PluginPath(), cs);
    SeedMeans(t, cs[i].name);
    ActiveMeans(t, cs[i].name, cs[i].version);
    InstalledMeans(cs, ActiveOf(t), i);
  }

  // ---------- the plugins of the input ----------

  /** What a configured plugin takes from the version folded into it, if any. */
  predicate TakesFrom(t: ScanTarget, p: Plugin, c: Plugin)
  {
    && p.version == c.version && p.fromMarketplace == c.fromMarketplace && p.path == c.path
    && p.skills == c.skills && p.commands == c.commands && p.subagents == c.subagents && p.hooks == c.hooks
    && p.servers == c.servers
    && p.fingerprint == t.w.hex(["plugin-config-cache", p.name, Flag(p.activeFor != ""), c.fingerprint])
  }

  predicate Bare(t: ScanTarget, p: Plugin, enabled: bool)
  {
    && p.version == "" && p.fromMarketplace == "" && p.path == t.w.host.pseudonym(t.state + ["settings.json"])
    && Components(p) == [] && p.fingerprint == t.w.hex(["plugin-config", p.name, Flag(enabled)])
  }

  ghost predicate ShowsConfigured(t: ScanTarget, p: Plugin, enabled: bool)
  {
    && ListedPlugin(t, p.name, enabled) && p.scope == "user" && !p.cachedOnly
    && p.activeFor == (if enabled then t.installation else "")
    && if exists c :: c in CacheAt(t).candidates && c.name == p.name && FoldedIn(t, c) then
         exists c :: c in CacheAt(t).candidates && c.name == p.name && FoldedIn(t, c) && TakesFrom(t, p, c)
       else Bare(t, p, enabled)
  }

  ghost predicate ShowsCached(t: ScanTarget, p: Plugin)
  {
    exists c :: c in CacheAt(t).candidates && !FoldedIn(t, c) && p == c.(cachedOnly := true)
  }

  lemma ConfiguredShows(t: ScanTarget, now: Configured, extra: seq<Plugin>, name: string)
    requires MergeOutcome(t.w.hex, Seed(t), now, CacheAt(t).candidates, ActiveOf(t), extra) && name in now
    ensures now[name].name == name && exists enabled :: ShowsConfigured(t, now[name], enabled)
  {
    hide CacheOf, Seed, ActiveOf, Installed, LeftOverBag, ListedPlugin, KeyList, Bare, Enriched;
    SeedMeans(t, name);
    var enabled :| ListedPlugin(t, name, enabled) && Seed(t)[name].name == name && Seed(t)[name].version == ""
      && Seed(t)[name].scope == "user" && !Seed(t)[name].cachedOnly && Seed(t)[name].fromMarketplace == ""
      && Seed(t)[name].activeFor == (if enabled then t.installation else "")
      && Seed(t)[name].path == t.w.host.pseudonym(t.state + ["settings.json"]) && Components(Seed(t)[name]) == []
      && Seed(t)[name].fingerprint == t.w.hex(["plugin-config", name, Flag(enabled)]);
    var p, installed := now[name], Installed(CacheAt(t).candidates, ActiveOf(t), name);
    assert p == Folded(t.w.hex, Seed(t)[name], CacheAt(t).candidates, ActiveOf(t));
    if installed.Some? {
      assert FoldedIn(t, installed.value);
      EnrichedTakes(t, Seed(t)[name], installed.value);
    } else {
      assert Bare(t, p, enabled) by { BareMeans(t, p, enabled); }
    }
    assert ShowsConfigured(t, p, enabled);
  }

  lemma BareMeans(t: ScanTarget, p: Plugin, enabled: bool)
    ensures Bare(t, p, enabled) <==>
      && p.version == "" && p.fromMarketplace == "" && p.path == t.w.host.pseudonym(t.state + ["settings.json"])
      && Components(p) == [] && p.fingerprint == t.w.hex(["plugin-config", p.name, Flag(enabled)])
  {
  }

  lemma EnrichedTakes(t: ScanTarget, target: Plugin, c: Plugin)
    ensures TakesFrom(t, Enriched(t.w.hex, target, c), c)
  {
  }

  /** Every plugin of a scanned input is one the settings list, with the contents of the version folded
      into it or bare, or the cached-only copy of a version that is not folded in. */
  lemma PluginsShow(t: ScanTarget, input: Input, p: Plugin)
    requires ValidTarget(t) && IsScan(t, input) && p in input.plugins
    ensures if p.cachedOnly then ShowsCached(t, p) else exists enabled :: ShowsConfigured(t, p, enabled)
  {
    hide CacheOf, Seed, ActiveOf, MergeOutcome, Installed, ShowsConfigured, FoldedIn, KeyList, ValidHost;
    hide Injective, Components;
    hide SkillsOf, ServersOf, GapsAt, PluginBag, LeftOver;
    var now, extra :| MergedInto(t, now, extra, input.plugins);
    PluginMember(now, extra, input.plugins, p);
    if p in extra {
      var c := ExtraEntry(t, now, extra, p);
      if FoldedIn(t, c) { FoldedIsNoCopy(t, now, extra, c); }
      CopyIs(c);
    } else {
      var name :| name in now && p == now[name];
      ConfiguredEntry(t, now, extra, name);
      ConfiguredShows(t, now, extra, name);
    }
  }

  lemma CopyIs(c: Plugin)
    ensures CachedCopy()(c) == c.(cachedOnly := true)
  {
  }

  /** Every plugin the settings list is there. */
  lemma ListedIsThere(t: ScanTarget, input: Input, name: string, enabled: bool) returns (p: Plugin)
    requires ValidTarget(t) && IsScan(t, input) && ListedPlugin(t, name, enabled)
    ensures p in input.plugins && p.name == name && ShowsConfigured(t, p, enabled)
  {
    hide CacheOf, Seed, ActiveOf, MergeOutcome, Installed, FoldedIn, KeyList, ValidHost, Injective;
    hide Components, ListedPlugin;
    hide SkillsOf, ServersOf, GapsAt, PluginBag, LeftOver, Bare, TakesFrom;
    var now, extra :| MergedInto(t, now, extra, input.plugins);
    SameNames(t, now, extra);
    SeedMeans(t, name);
    p := now[name];
    PluginMember(now, extra, input.plugins, p);
    ConfiguredShows(t, now, extra, name);
    var flag :| ShowsConfigured(t, p, flag);
    OneFlag(t, name, enabled, flag);
  }

  lemma OneFlag(t: ScanTarget, name: string, x: bool, y: bool)
    requires ListedPlugin(t, name, x) && ListedPlugin(t, name, y)
    ensures x == y
  {
  }

  // ---------- marketplaces ----------

  ghost predicate ShowsMarket(t: ScanTarget, m: Marketplace)
  {
    var root := t.state + ["plugins"] + ["cache"];
    m.path == t.w.host.pseudonym(root + [m.name]) && m.fingerprint == t.w.hex(["marketplace-cache", m.name])
  }

  /** Every marketplace of a scanned input is a directory of the cache, and some version came from it. */
  lemma MarketplacesShow(t: ScanTarget, input: Input, m: Marketplace)
    requires ValidTarget(t) && IsScan(t, input) && m in input.marketplaces
    ensures ShowsMarket(t, m) && exists c :: c in CacheAt(t).candidates && c.fromMarketplace == m.name
  {
    hide SkillsOf, ServersOf, GapsAt, MergedInto, AfterMarkets, Names, Contributing, Candidate, Added;
    hide ValidHost, Injective;
    hide CacheMarket;
    var root := CacheRoot(t.state);
    assert root == t.state + ["plugins"] + ["cache"];
    SameMembers(input.marketplaces, CacheAt(t).marketplaces);
    var markets := First(MAX_CACHE_MARKETPLACES, Names(t.w.host, root).value);
    MapMember(CacheMarket(t.w, root), Contributing(t.w, root, markets), m);
    var name :| name in Contributing(t.w, root, markets) && CacheMarket(t.w, root)(name) == m;
    CacheMarketIs(t.w, root, name);
    NamesDistinct(t.w.host, root);
    NoDuplicatesFirst(MAX_CACHE_MARKETPLACES, Names(t.w.host, root).value);
    ReportedIffContributed(t.w, root, markets, name);
    var places := AfterMarkets(t.w, root, markets).places;
    var p :| p in places && p.market == name;
    MapMember(Candidate(t.w, root), places, Candidate(t.w, root)(p));
    CandidateShows(t.w, root, p);
  }

  // ---------- skills ----------

  ghost predicate DeclaredUnder(t: ScanTarget, root: Path, scope: string, s: SkillDescriptor)
  {
    && t.w.host.probe(root).Present? && t.w.host.list(root).Listed?
    && DeclaredIn(t.w, root, t.w.host.list(root).entries, scope, s)
  }

  lemma ScanDeclares(t: ScanTarget, root: Path, scope: string, s: SkillDescriptor)
    ensures s in ScanOf(t.w, root, scope).skills <==> DeclaredUnder(t, root, scope, s)
  {
    hide DeclaredIn, GapsIn, FoundIn, SkillVisit;
    if t.w.host.probe(root).Present? && t.w.host.list(root).Listed? { SkillsDeclared(t.w, root, scope); }
  }

  ghost predicate DeclaredInScope(t: ScanTarget, scope: string, s: SkillDescriptor)
  {
    DeclaredUnder(t, t.state + ["skills"] + [scope], scope, s)
  }

  lemma {:induction false} ScopesDeclare(t: ScanTarget, scopes: seq<string>, s: SkillDescriptor)
    ensures s in ScopeSkills(t, scopes) <==>
      exists scope :: scope in scopes && DeclaredInScope(t, scope, s)
  {
    hide ScanOf, DeclaredUnder;
    if scopes != [] {
      var n := |scopes| - 1;
      assert scopes == scopes[..n] + [scopes[n]];
      ScopesDeclare(t, scopes[..n], s);
      ScanDeclares(t, ScopeRoot(t, scopes[n]), scopes[n], s);
      assert s in ScopeScan(t, scopes[n]).skills <==> DeclaredInScope(t, scopes[n], s);
    }
  }

  lemma {:induction false} UnreservedMember(skills: seq<SkillDescriptor>, s: SkillDescriptor)
    ensures s in Unreserved(skills) <==> s in skills && s.name !in {"user", "repository", "admin", "system"}
  {
    if skills != [] {
      var n := |skills| - 1;
      assert skills == skills[..n] + [skills[n]];
      UnreservedMember(skills[..n], s);
    }
  }

  /** The standalone skills are those declared under a documented scope's root, with that scope, and those
      declared in the personal root under any name but a scope's. */
  lemma SkillsShown(t: ScanTarget, input: Input, s: SkillDescriptor)
    requires IsScan(t, input)
    ensures s in input.skills <==>
      || (exists scope ::
            scope in {"user", "repository", "admin", "system"} && DeclaredInScope(t, scope, s))
      || (DeclaredUnder(t, t.state + ["skills"], "user", s) && s.name !in {"user", "repository", "admin", "system"})
  {
    hide ScanOf, DeclaredUnder, DeclaredInScope, ServersOf, GapsAt, MergedInto, CacheOf, ScopeSkills;
    hide Unreserved, Ordered;
    ScopesDeclare(t, SCOPES, s);
    ScanDeclares(t, PersonalRoot(t), SCOPE_USER, s);
    UnreservedMember(PersonalScan(t).skills, s);
    assert forall scope :: scope in SCOPES <==> scope in {"user", "repository", "admin", "system"};
  }

  // ---------- order ----------

  predicate NamesThenPaths(x: string, p: string, y: string, q: string)
  {
    StringLeq(x, y) && (x == y ==> StringLeq(p, q))
  }

  /** Every list is in byte order: skills and components by name and path, plugins by name and version,
      marketplaces by name. */
  lemma InOrder(t: ScanTarget, input: Input, root: Path, scope: string)
    requires IsScan(t, input)
    ensures forall i, j :: 0 <= i < j < |input.plugins| ==>
      NamesThenPaths(input.plugins[i].name, input.plugins[i].version, input.plugins[j].name, input.plugins[j].version)
    ensures forall i, j :: 0 <= i < j < |input.marketplaces| ==>
      StringLeq(input.marketplaces[i].name, input.marketplaces[j].name)
    ensures var skills := ScanOf(t.w, root, scope).skills;
      forall i, j :: 0 <= i < j < |skills| ==>
        NamesThenPaths(skills[i].name, skills[i].path, skills[j].name, skills[j].path)
    ensures var items := ItemsOf(t.w, root).items;
      forall i, j :: 0 <= i < j < |items| ==>
        NamesThenPaths(items[i].name, items[i].path, items[j].name, items[j].path)
  {
    hide SkillsOf, ServersOf, GapsAt, MergedInto, CacheOf, StringLeq;
    StringLeqReflexive();
    forall i, j | 0 <= i < j < |input.plugins|
      ensures NamesThenPaths(input.plugins[i].name, input.plugins[i].version,
                             input.plugins[j].name, input.plugins[j].version)
    {
      assert PluginLeq(input.plugins[i], input.plugins[j]);
    }
    forall i, j | 0 <= i < j < |input.marketplaces|
      ensures StringLeq(input.marketplaces[i].name, input.marketplaces[j].name)
    {
      assert MarketLeq(input.marketplaces[i], input.marketplaces[j]);
    }
    SkillsInOrder(t.w, root, scope);
    ItemsInOrder(t.w, root);
  }

  lemma StringLeqReflexive()
    ensures forall x :: StringLeq(x, x)
  {
    forall x ensures StringLeq(x, x) { StringLeqTotal(x, x); }
  }

  lemma SkillsInOrder(w: World, root: Path, scope: string)
    ensures var skills := ScanOf(w, root, scope).skills;
      forall i, j :: 0 <= i < j < |skills| ==>
        NamesThenPaths(skills[i].name, skills[i].path, skills[j].name, skills[j].path)
  {
    hide StringLeq, FoundIn, GapsIn, SkillVisit, SortedBy;
    StringLeqReflexive();
    SkillLeqIsOrder();
    if w.host.list(root).Listed? {
      SortedByOrdered(SkillLeq, FoundIn(SkillVisit(w, root, scope), w.host.list(root).entries));
    }
    var skills := ScanOf(w, root, scope).skills;
    assert Ordered(SkillLeq, skills);
    forall i, j | 0 <= i < j < |skills|
      ensures NamesThenPaths(skills[i].name, skills[i].path, skills[j].name, skills[j].path)
    {
      assert SkillLeq(skills[i], skills[j]);
    }
  }

  lemma ItemsInOrder(w: World, root: Path)
    ensures var items := ItemsOf(w, root).items;
      forall i, j :: 0 <= i < j < |items| ==>
        NamesThenPaths(items[i].name, items[i].path, items[j].name, items[j].path)
  {
    hide StringLeq, FoundIn, GapsIn, MarkdownVisit, Reached, SortedBy;
    StringLeqReflexive();
    ItemLeqIsOrder();
    if w.host.list(root).Listed? {
      SortedByOrdered(ItemLeq, FoundIn(MarkdownVisit(w, root),
                                       Reached(MarkdownVisit(w, root), MAX_BUNDLED, w.host.list(root).entries)));
    }
    var items := ItemsOf(w, root).items;
    assert Ordered(ItemLeq, items);
    forall i, j | 0 <= i < j < |items|
      ensures NamesThenPaths(items[i].name, items[i].path, items[j].name, items[j].path)
    {
      assert ItemLeq(items[i], items[j]);
    }
  }
}
