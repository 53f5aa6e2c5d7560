/** Whatever the host holds, the descriptors of one scan have distinct keys: so the graph built
    from a scan is one graph, whatever order the lists come in. */
module ScanKeys {
  import opened Ordering
  import opened InventoryTypes
  import opened InventoryGraph
  import opened GraphIdentity
  import opened GraphOrder
  import opened HostTree
  import opened SkillScan
  import opened BundleScan
  import opened CacheScan
  import opened CacheBounds
  import opened PluginMerge
  import opened HostScan

  ghost predicate ValidTarget(t: ScanTarget)
  {
    ValidHost(t.w.host) && Injective(t.w.hex)
  }

  // ---------- skills ----------

  lemma KeysFromPaths(skills: seq<SkillDescriptor>)
    requires NoDuplicates(Map(PathOf(), skills))
    ensures DistinctComponents(skills)
  {
    forall i, j | 0 <= i < j < |skills| ensures Map(KeyOf(), skills)[i] != Map(KeyOf(), skills)[j] {
      assert Map(PathOf(), skills)[i] != Map(PathOf(), skills)[j];
    }
  }

  lemma {:induction false} ScopeSkillsDistinct(t: ScanTarget, scopes: seq<string>)
    requires ValidHost(t.w.host) && NoDuplicates(scopes)
    ensures NoDuplicates(Map(PathOf(), ScopeSkills(t, scopes)))
    ensures forall s :: s in ScopeSkills(t, scopes) ==>
      exists scope :: scope in scopes && SkillOf(t.w, ScopeRoot(t, scope), scope, s)
  {
    hide ValidHost, ScanOf, SkillOf;
    if scopes != [] {
      var n := |scopes| - 1;
      var front, last := scopes[..n], scopes[n];
      var before, more := ScopeSkills(t, front), ScopeScan(t, last).skills;
      assert scopes == front + [last] && last !in front;
      ScopeSkillsDistinct(t, front);
      ScannedPathsDistinct(t.w, ScopeRoot(t, last), last);
      ScannedSkillsOf(t.w, ScopeRoot(t, last), last);
      forall s, r | s in before && r in more ensures s.path != r.path {
        var scope :| scope in front && SkillOf(t.w, ScopeRoot(t, scope), scope, s);
        var k := |PersonalRoot(t)|;
        assert ScopeRoot(t, scope)[k] == scope && ScopeRoot(t, last)[k] == last;
        RootsApart(t, ScopeRoot(t, scope), scope, s, ScopeRoot(t, last), last, r);
      }
      PathsConcat(before, more);
    }
  }

  lemma PathsConcat(s: seq<SkillDescriptor>, r: seq<SkillDescriptor>)
    requires NoDuplicates(Map(PathOf(), s)) && NoDuplicates(Map(PathOf(), r))
    requires forall x, y :: x in s && y in r ==> x.path != y.path
    ensures NoDuplicates(Map(PathOf(), s + r))
  {
    MapConcat(PathOf(), s, r);
    forall path | path in Map(PathOf(), s) ensures path !in Map(PathOf(), r) {
      var i :| 0 <= i < |s| && s[i].path == path;
      forall j | 0 <= j < |r| ensures r[j].path != path {
        assert s[i] in s && r[j] in r;
      }
    }
    NoDuplicatesConcat(Map(PathOf(), s), Map(PathOf(), r));
  }

  /** Skills of two different roots never share a manifest. */
  lemma RootsApart(t: ScanTarget, a: Path, scopeA: string, s: SkillDescriptor, b: Path, scopeB: string,
                   r: SkillDescriptor)
    requires ValidHost(t.w.host) && SkillOf(t.w, a, scopeA, s) && SkillOf(t.w, b, scopeB, r) && a != b
    ensures s.path != r.path
  {
    var x :| s.path == t.w.host.pseudonym(ManifestPath(a, x));
    var y :| r.path == t.w.host.pseudonym(ManifestPath(b, y));
    var p, q := ManifestPath(a, x), ManifestPath(b, y);
    assert |p| == |a| + 2 && |q| == |b| + 2;
    assert p[..|a|] == a && q[..|b|] == b;
  }

  lemma {:induction false} UnreservedDistinct(skills: seq<SkillDescriptor>)
    requires NoDuplicates(Map(PathOf(), skills))
    ensures NoDuplicates(Map(PathOf(), Unreserved(skills)))
    ensures forall s :: s in Unreserved(skills) <==> s in skills && !Reserved(s.name)
  {
    hide Reserved;
    if skills != [] {
      var n := |skills| - 1;
      var front, last := skills[..n], skills[n];
      assert skills == front + [last];
      var paths := Map(PathOf(), skills);
      assert NoDuplicates(Map(PathOf(), front)) by { assert Map(PathOf(), front) == paths[..n]; }
      UnreservedDistinct(front);
      var before := Unreserved(front);
      forall i | 0 <= i < |before| ensures before[i].path != last.path {
        assert before[i] in front;
        var k :| 0 <= k < n && front[k] == before[i];
        assert paths[k] != paths[n];
      }
      assert Map(PathOf(), before + [last]) == Map(PathOf(), before) + [last.path];
      NoDuplicatesSnoc(Map(PathOf(), before), last.path);
    }
  }

  lemma ScannedSkillsDistinct(t: ScanTarget)
    requires ValidHost(t.w.host)
    ensures NoDuplicates(Map(PathOf(), SkillsOf(t)))
  {
    hide ValidHost, ScanOf, SkillOf, ScopeSkills, Unreserved;
    var scoped, personal := ScopeSkills(t, SCOPES), Unreserved(PersonalScan(t).skills);
    ScopeSkillsDistinct(t, SCOPES);
    ScannedPathsDistinct(t.w, PersonalRoot(t), SCOPE_USER);
    ScannedSkillsOf(t.w, PersonalRoot(t), SCOPE_USER);
    UnreservedDistinct(PersonalScan(t).skills);
    forall s, r | s in scoped && r in personal ensures s.path != r.path {
      var scope :| scope in SCOPES && SkillOf(t.w, ScopeRoot(t, scope), scope, s);
      assert |ScopeRoot(t, scope)| == |PersonalRoot(t)| + 1;
      RootsApart(t, ScopeRoot(t, scope), scope, s, PersonalRoot(t), SCOPE_USER, r);
    }
    PathsConcat(scoped, personal);
  }

  // ---------- standalone components ----------

  lemma ServersDistinct(t: ScanTarget)
    ensures DistinctComponents(ServersOf(t))
  {
    hide Considered;
    if SettingsOf(t).Some? {
      var s := SettingsOf(t).value;
      var names := Considered(s.servers.Keys);
      ConsideredMembers(s.servers.Keys);
      forall i, j | 0 <= i < j < |names| ensures Map(KeyOf(), ServersOf(t))[i] != Map(KeyOf(), ServersOf(t))[j] {
        assert names[i] != names[j];
      }
    }
  }

  /** Skills and components of other kinds have different keys. */
  lemma SkillsAndOthers(skills: seq<SkillDescriptor>, others: seq<Component>)
    requires DistinctComponents(skills) && DistinctComponents(others) && forall c :: c in others ==> !c.Skill?
    ensures DistinctComponents(skills + others)
  {
    MapConcat(KeyOf(), skills, others);
    forall k | k in Map(KeyOf(), skills) ensures k !in Map(KeyOf(), others) {
      var i :| 0 <= i < |skills| && Map(KeyOf(), skills)[i] == k;
      forall j | 0 <= j < |others| ensures Map(KeyOf(), others)[j] != k {
        assert others[j] in others;
      }
    }
    NoDuplicatesConcat(Map(KeyOf(), skills), Map(KeyOf(), others));
  }

  lemma StandaloneDistinct(t: ScanTarget, input: Input)
    requires ValidHost(t.w.host) && IsScan(t, input)
    ensures DistinctComponents(Standalone(input))
  {
    hide ValidHost, SkillsOf, ServersOf, DistinctComponents, CacheOf, MergedInto, GapsAt;
    ScannedSkillsDistinct(t);
    KeysFromPaths(SkillsOf(t));
    ServersDistinct(t);
    SkillsAndOthers(input.skills, input.servers);
    assert Standalone(input) == input.skills + input.servers;
  }

  // ---------- candidates ----------

  /** Where a candidate comes from. */
  lemma CandidatePlaces(t: ScanTarget) returns (places: seq<Place>)
    requires ValidHost(t.w.host)
    ensures CacheAt(t).candidates == Map(Candidate(t.w, CacheRoot(t.state)), places) && NoDuplicates(places)
    ensures forall p :: p in places ==> exists m :: m in CacheAt(t).marketplaces && m.name == p.market
  {
    hide ValidHost, Names, AfterMarkets, Contributing, Candidate;
    var root := CacheRoot(t.state);
    if CacheAt(t).observed {
      NamesDistinct(t.w.host, root);
      var names := Names(t.w.host, root).value;
      var markets := First(MAX_CACHE_MARKETPLACES, names);
      NoDuplicatesFirst(MAX_CACHE_MARKETPLACES, names);
      WalkedMarkets(t.w, root, markets);
      places := AfterMarkets(t.w, root, markets).places;
      forall p | p in places ensures exists m :: m in CacheAt(t).marketplaces && m.name == p.market {
        ReportedIffContributed(t.w, root, markets, p.market);
        var k :| 0 <= k < |Contributing(t.w, root, markets)| && Contributing(t.w, root, markets)[k] == p.market;
        CacheMarketIs(t.w, root, p.market);
        assert CacheAt(t).marketplaces[k].name == p.market;
      }
    } else {
      places := [];
      assert Map(Candidate(t.w, root), places) == [];
    }
  }

  lemma CandidateShape(w: World, root: Path, p: Place)
    ensures var c := Candidate(w, root)(p);
      && c.path == w.host.pseudonym(PlaceDir(root, p)) && c.fromMarketplace == p.market && c.version == p.version
      && !c.cachedOnly && c.activeFor == "" && c.scope == SCOPE_PLUGIN_CACHE
      && Components(c) ==
        ScanOf(w, SkillsDir(PlaceDir(root, p)), SCOPE_PLUGIN_CACHE).skills + BundleComponents(w, PlaceDir(root, p))
  {
    hide ScanOf, DeclaredName, CommandsOf, AgentsOf, HooksOf, BundledServersOf;
  }

  lemma CandidateComponentsDistinct(w: World, root: Path, p: Place)
    requires ValidHost(w.host)
    ensures DistinctComponents(Components(Candidate(w, root)(p)))
  {
    hide ValidHost, ScanOf, DistinctComponents, Candidate, Components, BundleComponents;
    var dir := PlaceDir(root, p);
    CandidateShape(w, root, p);
    BundleDistinct(w, dir);
    ScannedPathsDistinct(w, SkillsDir(dir), SCOPE_PLUGIN_CACHE);
    KeysFromPaths(ScanOf(w, SkillsDir(dir), SCOPE_PLUGIN_CACHE).skills);
    SkillsAndOthers(ScanOf(w, SkillsDir(dir), SCOPE_PLUGIN_CACHE).skills, BundleComponents(w, dir));
  }

  function PluginPath(): Plugin -> string
  {
    (p: Plugin) => p.path
  }

  lemma CandidatePathsDistinct(t: ScanTarget)
    requires ValidHost(t.w.host)
    ensures NoDuplicates(Map(PluginPath(), CacheAt(t).candidates))
    ensures forall c :: c in CacheAt(t).candidates ==> DistinctComponents(Components(c))
    ensures forall c :: c in CacheAt(t).candidates ==>
      exists m :: m in CacheAt(t).marketplaces && m.name == c.fromMarketplace
  {
    hide Candidate, CacheOf, DistinctComponents, Components;
    var root, candidates := CacheRoot(t.state), CacheAt(t).candidates;
    var places := CandidatePlaces(t);
    forall i | 0 <= i < |places|
      ensures candidates[i].path == t.w.host.pseudonym(PlaceDir(root, places[i]))
      ensures candidates[i].fromMarketplace == places[i].market
    {
      CandidateShape(t.w, root, places[i]);
    }
    forall i, j | 0 <= i < j < |places| ensures candidates[i].path != candidates[j].path {
      var p, q := PlaceDir(root, places[i]), PlaceDir(root, places[j]);
      var n := |root|;
      assert places[i] != places[j];
      assert p[n] == places[i].market && p[n + 1] == places[i].folder && p[n + 2] == places[i].version;
      assert q[n] == places[j].market && q[n + 1] == places[j].folder && q[n + 2] == places[j].version;
      assert p != q;
    }
    forall c | c in candidates
      ensures DistinctComponents(Components(c))
      ensures exists m :: m in CacheAt(t).marketplaces && m.name == c.fromMarketplace
    {
      var i :| 0 <= i < |places| && candidates[i] == c;
      assert places[i] in places;
      CandidateComponentsDistinct(t.w, root, places[i]);
    }
  }

  // ---------- plugins ----------

  /** Keys that are distinct over a bag are distinct over any part of it. */
  lemma PartDistinct<A(!new), K(!new)>(key: A -> K, s: seq<A>, part: seq<A>, rest: multiset<A>)
    requires NoDuplicates(Map(key, s)) && multiset(s) == multiset(part) + rest
    ensures NoDuplicates(Map(key, part))
  {
    var others := BagList(rest);
    assert multiset(part + others) == multiset(part) + multiset(others);
    MapBag(key, s, part + others);
    BagDecidesDuplicates(Map(key, s), Map(key, part + others));
    MapConcat(key, part, others);
    var keys := Map(key, part + others);
    assert Map(key, part) == keys[..|part|];
  }

  lemma ExtraDistinct(t: ScanTarget, now: Configured, extra: seq<Plugin>)
    requires ValidHost(t.w.host)
    requires MergeOutcome(t.w.hex, Seed(t), now, CacheAt(t).candidates, ActiveOf(t), extra)
    ensures NoDuplicates(Map(PluginPath(), extra))
  {
    hide MergeOutcome, CacheOf, Seed, ActiveOf, ValidHost, InstalledBag;
    var candidates := CacheAt(t).candidates;
    CandidatePathsDistinct(t);
    CandidatesAreConserved(t.w.hex, Seed(t), now, candidates, ActiveOf(t), extra);
    var copies := Map(CachedCopy(), candidates);
    assert Map(PluginPath(), copies) == Map(PluginPath(), candidates);
    PartDistinct(PluginPath(), copies, extra,
                 BagSum(InstalledBag(Seed(t), candidates, ActiveOf(t)), KeyList(NamesOf(candidates))));
  }

  /** A scanned plugin is a configured entry after merging or a cached-only candidate. */
  lemma PluginMember(now: Configured, extra: seq<Plugin>, plugins: seq<Plugin>, p: Plugin)
    requires multiset(plugins) == PluginBag(now, extra)
    ensures p in plugins <==> (exists name :: name in now && p == now[name]) || p in extra
  {
    hide KeyList;
    var names := KeyList(now.Keys);
    KeyListIs(now.Keys);
    assert p in plugins <==> p in multiset(plugins);
    assert p in extra <==> p in multiset(extra);
    if p in multiset(Map(Lookup(now), names)) {
      var i :| 0 <= i < |names| && Map(Lookup(now), names)[i] == p;
      assert names[i] in names;
    }
    if name :| name in now && p == now[name] {
      assert name in names;
      var i :| 0 <= i < |names| && names[i] == name;
      assert Map(Lookup(now), names)[i] == p;
    }
  }

  lemma SeededEntry(t: ScanTarget, name: string)
    requires name in Seed(t)
    ensures Seed(t)[name].name == name && Seed(t)[name].scope == SCOPE_USER && !Seed(t)[name].cachedOnly
    ensures Components(Seed(t)[name]) == [] && Seed(t)[name].fromMarketplace == ""
    ensures SettingsOf(t).Some? && name in SettingsOf(t).value.enabledPlugins
    ensures Seed(t)[name].activeFor == if SettingsOf(t).value.enabledPlugins[name] then t.installation else ""
  {
    hide Considered;
  }

  /** Configured entries keep their names and scopes. */
  lemma ConfiguredEntry(t: ScanTarget, now: Configured, extra: seq<Plugin>, name: string)
    requires MergeOutcome(t.w.hex, Seed(t), now, CacheAt(t).candidates, ActiveOf(t), extra) && name in now
    ensures name in Seed(t) && now[name].name == name && now[name].scope == SCOPE_USER && !now[name].cachedOnly
    ensures now[name].activeFor == Seed(t)[name].activeFor
    ensures Components(now[name]) ==
      (match Installed(CacheAt(t).candidates, ActiveOf(t), name) case Some(c) => Components(c) case None => [])
    ensures now[name].fromMarketplace ==
      (match Installed(CacheAt(t).candidates, ActiveOf(t), name) case Some(c) => c.fromMarketplace case None => "")
  {
    hide Seed, CacheOf, ActiveOf, Installed, Components, LeftOverBag;
    SeedKeyed(t);
    MergingNeverEnables(t.w.hex, Seed(t), now, CacheAt(t).candidates, ActiveOf(t), extra, name);
    SeededEntry(t, name);
    assert now[name] == Folded(t.w.hex, Seed(t)[name], CacheAt(t).candidates, ActiveOf(t));
  }

  lemma ExtraEntry(t: ScanTarget, now: Configured, extra: seq<Plugin>, p: Plugin) returns (c: Plugin)
    requires MergeOutcome(t.w.hex, Seed(t), now, CacheAt(t).candidates, ActiveOf(t), extra) && p in extra
    ensures c in CacheAt(t).candidates && p == CachedCopy()(c) && p.cachedOnly
    ensures Components(p) == Components(c) && p.fromMarketplace == c.fromMarketplace && p.path == c.path
  {
    hide MergeOutcome, Seed, CacheOf, ActiveOf, LeftOver;
    ExtraMember(t.w.hex, Seed(t), now, CacheAt(t).candidates, ActiveOf(t), extra, p);
    var name, d :| d in LeftOver(Seed(t), CacheAt(t).candidates, ActiveOf(t), name) && p == CachedCopy()(d);
    LeftOverNames(Seed(t), CacheAt(t).candidates, ActiveOf(t), name, d);
    c := d;
  }

  lemma PluginKeysDistinct(t: ScanTarget, now: Configured, extra: seq<Plugin>, plugins: seq<Plugin>)
    requires ValidHost(t.w.host) && MergedInto(t, now, extra, plugins)
    ensures DistinctPlugins(plugins)
  {
    hide ValidHost, MergeOutcome, CacheOf, KeyList, CachedCopy, Components;
    var names := KeyList(now.Keys);
    KeyListIs(now.Keys);
    var entries := Map(Lookup(now), names);
    forall i, j | 0 <= i < j < |names| ensures Map(PluginKeyOf(), entries)[i] != Map(PluginKeyOf(), entries)[j] {
      assert names[i] in names && names[j] in names;
      ConfiguredEntry(t, now, extra, names[i]);
      ConfiguredEntry(t, now, extra, names[j]);
    }
    ExtraDistinct(t, now, extra);
    forall i, j | 0 <= i < j < |extra| ensures Map(PluginKeyOf(), extra)[i] != Map(PluginKeyOf(), extra)[j] {
      assert Map(PluginPath(), extra)[i] != Map(PluginPath(), extra)[j];
    }
    forall k | k in Map(PluginKeyOf(), entries) ensures k !in Map(PluginKeyOf(), extra) {
      var i :| 0 <= i < |names| && Map(PluginKeyOf(), entries)[i] == k;
      assert names[i] in names;
      ConfiguredEntry(t, now, extra, names[i]);
      forall j | 0 <= j < |extra| ensures Map(PluginKeyOf(), extra)[j] != k {
        var c := ExtraEntry(t, now, extra, extra[j]);
      }
    }
    NoDuplicatesConcat(Map(PluginKeyOf(), entries), Map(PluginKeyOf(), extra));
    MapConcat(PluginKeyOf(), entries, extra);
    MapBag(PluginKeyOf(), entries + extra, plugins);
    BagDecidesDuplicates(Map(PluginKeyOf(), entries + extra), Map(PluginKeyOf(), plugins));
  }

  lemma PluginComponentsDistinct(t: ScanTarget, now: Configured, extra: seq<Plugin>, plugins: seq<Plugin>, p: Plugin)
    requires ValidHost(t.w.host) && MergedInto(t, now, extra, plugins) && p in plugins
    ensures DistinctComponents(Components(p))
  {
    hide ValidHost, MergeOutcome, CacheOf, CachedCopy, Components, PluginBag, Seed, Installed;
    CandidatePathsDistinct(t);
    PluginMember(now, extra, plugins, p);
    if p in extra {
      var c := ExtraEntry(t, now, extra, p);
    } else {
      var name :| name in now && p == now[name];
      ConfiguredEntry(t, now, extra, name);
    }
  }

  // ---------- marketplaces ----------

  function NameOf(): Marketplace -> string
  {
    (m: Marketplace) => m.name
  }

  lemma MarketplacesDistinct(t: ScanTarget, marketplaces: seq<Marketplace>)
    requires ValidHost(t.w.host) && multiset(marketplaces) == multiset(CacheAt(t).marketplaces)
    ensures NoDuplicates(Map(NameOf(), marketplaces))
  {
    hide ValidHost, Names, AfterMarkets, Contributing;
    var root, reported := CacheRoot(t.state), CacheAt(t).marketplaces;
    if CacheAt(t).observed {
      NamesDistinct(t.w.host, root);
      var names := Names(t.w.host, root).value;
      var markets := First(MAX_CACHE_MARKETPLACES, names);
      NoDuplicatesFirst(MAX_CACHE_MARKETPLACES, names);
      ReportedIffContributed(t.w, root, markets, "");
      assert Map(NameOf(), reported) == Contributing(t.w, root, markets);
    }
    MapBag(NameOf(), reported, marketplaces);
    BagDecidesDuplicates(Map(NameOf(), reported), Map(NameOf(), marketplaces));
  }

  // ---------- all keys ----------

  lemma DistinctNamesSeparate(marketplaces: seq<Marketplace>)
    requires NoDuplicates(Map(NameOf(), marketplaces))
    ensures DistinctMarketplaces(marketplaces) && forall name :: Unshared(marketplaces, name)
  {
    forall i, j | 0 <= i < j < |marketplaces|
      ensures Map(MarketKeyOf(), marketplaces)[i] != Map(MarketKeyOf(), marketplaces)[j]
    {
      assert Map(NameOf(), marketplaces)[i] != Map(NameOf(), marketplaces)[j];
    }
    forall m, n | m in marketplaces && n in marketplaces && m.name == n.name ensures m == n {
      SameKeySameElement(NameOf(), marketplaces, m, n);
    }
  }

  /** A scan's descriptors have distinct keys and its marketplaces distinct names. */
  lemma ScannedKeysDistinct(t: ScanTarget, input: Input)
    requires ValidTarget(t) && IsScan(t, input)
    ensures DistinctKeys(input) && NoDuplicates(Map(NameOf(), input.marketplaces)) && PointersClear(input)
  {
    hide ValidHost, Injective, DistinctComponents, DistinctPlugins, DistinctMarketplaces, Unshared;
    hide NoDuplicates, SkillsOf, ServersOf, CacheOf, GapsAt, MergedInto, Standalone, Components;
    var now, extra :| MergedInto(t, now, extra, input.plugins);
    StandaloneDistinct(t, input);
    PluginKeysDistinct(t, now, extra, input.plugins);
    MarketplacesDistinct(t, input.marketplaces);
    DistinctNamesSeparate(input.marketplaces);
    forall p | p in input.plugins ensures DistinctComponents(Components(p)) {
      PluginComponentsDistinct(t, now, extra, input.plugins, p);
    }
  }
}
