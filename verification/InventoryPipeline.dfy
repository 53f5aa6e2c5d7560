/** The inventory pipeline end to end: what a scan of the host, merged, built into a graph and
    compared with an earlier snapshot, says about the host. */
module InventoryPipeline {
  import opened Ordering
  import opened CoverageGaps
  import opened InventoryTypes
  import opened InventoryGraph
  import opened GraphIdentity
  import opened GraphOrder
  import opened GraphProperties
  import opened GraphAdmission
  import opened HostTree
  import opened Visits
  import opened SkillScan
  import opened CacheScan
  import opened CacheCoverage
  import opened PluginMerge
  import opened HostScan
  import opened ScanKeys
  import opened SnapshotDiff
  import GraphBuilder

  // ---------- one host, one graph ----------

  lemma MergeOutcomeDetermined(hex: Hex, start: Configured, a: Configured, b: Configured, candidates: seq<Plugin>,
                               active: map<string, string>, extraA: seq<Plugin>, extraB: seq<Plugin>)
    requires MergeOutcome(hex, start, a, candidates, active, extraA)
    requires MergeOutcome(hex, start, b, candidates, active, extraB)
    ensures a == b && multiset(extraA) == multiset(extraB)
  {
    hide Folded, LeftOverBag, BagSum, KeyList;
  }

  /** Two scans of one host find the same plugins, up to order. */
  lemma ScansAgree(t: ScanTarget, i: Input, j: Input)
    requires IsScan(t, i) && IsScan(t, j)
    ensures Shuffled(i, j)
  {
    hide SkillsOf, ServersOf, CacheOf, GapsAt, MergeOutcome, PluginBag, Seed, ActiveOf;
    var a, extraA :| MergedInto(t, a, extraA, i.plugins);
    var b, extraB :| MergedInto(t, b, extraB, j.plugins);
    MergeOutcomeDetermined(t.w.hex, Seed(t), a, b, CacheAt(t).candidates, ActiveOf(t), extraA, extraB);
    PluginBagDetermined(a, extraA, extraB);
    MapBag(PluginShapeOf(), i.plugins, j.plugins);
  }

  lemma PluginBagDetermined(now: Configured, extraA: seq<Plugin>, extraB: seq<Plugin>)
    requires multiset(extraA) == multiset(extraB)
    ensures PluginBag(now, extraA) == PluginBag(now, extraB)
  {
  }

  /** Scanning the same host twice and building the graph each time gives the same snapshot: map
      iteration, unstable sorting and listing order leave no trace. */
  lemma PipelineIsDeterministic(t: ScanTarget, i: Input, j: Input, now: int, r: Outcome, s: Outcome)
    requires ValidTarget(t) && IsScan(t, i) && IsScan(t, j)
    requires IsOutcome(t.w.hex, i, now, r) && IsOutcome(t.w.hex, j, now, s)
    ensures r == s
  {
    hide IsScan, IsOutcome, DistinctKeys, PointersClear, Shuffled, ValidHost, Injective;
    ScannedKeysDistinct(t, i);
    ScansAgree(t, i, j);
    SnapshotIgnoresOrder(t.w.hex, i, j, now, r, s);
  }

  // ---------- enablement ----------

  /** settings.json lists the plugin among those considered, and enables it. */
  ghost predicate EnabledBySettings(t: ScanTarget, name: string)
  {
    SettingsOf(t).Some? && name in Considered(SettingsOf(t).value.enabledPlugins.Keys)
    && name in SettingsOf(t).value.enabledPlugins && SettingsOf(t).value.enabledPlugins[name]
  }

  /** The cached version is the one folded into a configured plugin. */
  ghost predicate FoldedIn(t: ScanTarget, c: Plugin)
  {
    c.name in Seed(t) && Installed(CacheAt(t).candidates, ActiveOf(t), c.name) == Some(c)
  }

  /** The plugin of the scanned input that carries a candidate's contents. */
  ghost predicate CarriedBy(t: ScanTarget, input: Input, c: Plugin, p: Plugin)
  {
    && p in input.plugins && p.name == c.name && p.path == c.path && Components(p) == Components(c)
    && p.cachedOnly == !FoldedIn(t, c)
  }

  lemma UnchosenMember(group: seq<Plugin>, at: Option<nat>, c: Plugin)
    requires at.Some? ==> at.value < |group|
    requires c in group && Chosen(group, at) != Some(c)
    ensures c in Unchosen(group, at)
  {
    var k :| 0 <= k < |group| && group[k] == c;
    if at.Some? {
      var rest := group[..at.value] + group[at.value + 1..];
      assert rest[if k < at.value then k else k - 1] == c;
    }
  }

  lemma NotInstalledStaysBehind(configured: Configured, candidates: seq<Plugin>, active: map<string, string>, c: Plugin)
    requires c in candidates && (c.name in configured ==> Installed(candidates, active, c.name) != Some(c))
    ensures c in LeftOver(configured, candidates, active, c.name)
  {
    hide InstalledAt, Chosen, Unchosen;
    var group := Group(candidates, c.name);
    assert c in group;
    if c.name in configured { UnchosenMember(group, InstalledAt(group, active, c.name), c); }
  }

  /** Every cached version ends up in a scanned plugin: the configured one of its name, or a
      cached-only copy. */
  lemma CandidateIsCarried(t: ScanTarget, input: Input, c: Plugin) returns (p: Plugin)
    requires IsScan(t, input) && c in CacheAt(t).candidates
    ensures CarriedBy(t, input, c, p)
    ensures FoldedIn(t, c) ==> p.activeFor == Seed(t)[c.name].activeFor && p.scope == SCOPE_USER
    ensures !FoldedIn(t, c) ==> p == CachedCopy()(c)
  {
    hide SkillsOf, ServersOf, CacheOf, GapsAt, MergeOutcome, PluginBag, Seed, ActiveOf, Installed, LeftOver;
    hide Components, KeyList;
    var now, extra :| MergedInto(t, now, extra, input.plugins);
    if FoldedIn(t, c) {
      p := now[c.name] by { SameNames(t, now, extra); }
      ConfiguredCarries(t, now, extra, c);
      PluginMember(now, extra, input.plugins, p);
    } else {
      NotInstalledStaysBehind(Seed(t), CacheAt(t).candidates, ActiveOf(t), c);
      p := CachedCopy()(c);
      ExtraMember(t.w.hex, Seed(t), now, CacheAt(t).candidates, ActiveOf(t), extra, p);
      PluginMember(now, extra, input.plugins, p);
      CachedCopyOf(c);
    }
  }

  /** A version that is folded in is not also a cached-only copy. */
  lemma FoldedIsNoCopy(t: ScanTarget, now: Configured, extra: seq<Plugin>, c: Plugin)
    requires ValidHost(t.w.host) && c in CacheAt(t).candidates && FoldedIn(t, c)
    requires MergeOutcome(t.w.hex, Seed(t), now, CacheAt(t).candidates, ActiveOf(t), extra)
    ensures CachedCopy()(c) !in extra
  {
    hide CacheOf, Seed, ActiveOf, ValidHost, MergeOutcome, KeyList, Installed, Map;
    var candidates, copy := CacheAt(t).candidates, CachedCopy()(c);
    var names, f := KeyList(NamesOf(candidates)), InstalledBag(Seed(t), candidates, ActiveOf(t));
    KeyListIs(NamesOf(candidates));
    CandidatesAreConserved(t.w.hex, Seed(t), now, candidates, ActiveOf(t), extra);
    assert c.name in names;
    var k :| 0 <= k < |names| && names[k] == c.name;
    assert f(names[k]) == multiset{copy};
    BagSumMember(f, names, copy);
    CopiesDistinct(t);
    NoDuplicatesMultiplicity(Map(CachedCopy(), candidates), copy);
    assert copy in extra ==> multiset(extra)[copy] >= 1;
  }

  lemma CopiesDistinct(t: ScanTarget)
    requires ValidHost(t.w.host)
    ensures NoDuplicates(Map(CachedCopy(), CacheAt(t).candidates))
  {
    hide CacheOf, ValidHost;
    CandidatePathsDistinct(t);
    var candidates := CacheAt(t).candidates;
    forall i, j | 0 <= i < j < |candidates| ensures CachedCopy()(candidates[i]) != CachedCopy()(candidates[j]) {
      assert Map(PluginPath(), candidates)[i] != Map(PluginPath(), candidates)[j];
    }
  }

  /** Where a scanned plugin's path comes from: a cached-only copy's from its candidate, a configured
      one's from the version folded in, if any. */
  lemma PathOrigin(t: ScanTarget, now: Configured, extra: seq<Plugin>, q: Plugin) returns (d: Option<Plugin>)
    requires MergeOutcome(t.w.hex, Seed(t), now, CacheAt(t).candidates, ActiveOf(t), extra)
    requires q in extra || exists name :: name in now && q == now[name]
    ensures d.None? ==> q.path == t.w.host.pseudonym(SettingsPath(t))
    ensures d.Some? ==> d.value in CacheAt(t).candidates && d.value.path == q.path
    ensures d.Some? ==> (q in extra && q == CachedCopy()(d.value)) || (FoldedIn(t, d.value) && q == now[d.value.name])
  {
    hide CacheOf, Seed, ActiveOf, MergeOutcome, KeyList, Installed, CachedCopy, Components;
    if q in extra {
      var c := ExtraEntry(t, now, extra, q);
      d := Some(c);
    } else {
      var name :| name in now && q == now[name];
      d := Installed(CacheAt(t).candidates, ActiveOf(t), name);
      FoldedPath(t, now, extra, name);
    }
  }

  lemma FoldedPath(t: ScanTarget, now: Configured, extra: seq<Plugin>, name: string)
    requires MergeOutcome(t.w.hex, Seed(t), now, CacheAt(t).candidates, ActiveOf(t), extra) && name in now
    ensures var d := Installed(CacheAt(t).candidates, ActiveOf(t), name);
      && name in Seed(t)
      && (d.None? ==> now[name].path == t.w.host.pseudonym(SettingsPath(t)))
      && (d.Some? ==> d.value in CacheAt(t).candidates && d.value.name == name && now[name].path == d.value.path)
  {
    hide Seed, CacheOf, ActiveOf, LeftOverBag, KeyList, Installed, Components, Enriched;
    ConfiguredEntry(t, now, extra, name);
    SeedPath(t, name);
    assert now[name] == Folded(t.w.hex, Seed(t)[name], CacheAt(t).candidates, ActiveOf(t));
    FoldedPathIs(t.w.hex, Seed(t)[name], CacheAt(t).candidates, ActiveOf(t));
  }

  lemma SeedPath(t: ScanTarget, name: string)
    requires name in Seed(t)
    ensures Seed(t)[name].path == t.w.host.pseudonym(SettingsPath(t)) && Seed(t)[name].name == name
  {
    hide Considered;
  }

  lemma FoldedPathIs(hex: Hex, target: Plugin, candidates: seq<Plugin>, active: map<string, string>)
    ensures var d := Installed(candidates, active, target.name);
      Folded(hex, target, candidates, active).path == if d.Some? then d.value.path else target.path
  {
    hide Installed;
  }

  /** No other scanned plugin has the version's path, and none is listed twice. */
  lemma CarrierIsUnique(t: ScanTarget, input: Input, c: Plugin, p: Plugin, q: Plugin)
    requires ValidTarget(t) && IsScan(t, input) && c in CacheAt(t).candidates
    requires CarriedBy(t, input, c, p) && q in input.plugins && q.path == c.path
    ensures q == p && NoDuplicates(input.plugins)
  {
    hide CacheOf, Seed, ActiveOf, MergeOutcome, KeyList, ValidHost, Injective, Installed, CachedCopy;
    hide Components, SkillsOf, ServersOf, GapsAt;
    hide PluginBag;
    var now, extra :| MergedInto(t, now, extra, input.plugins);
    PluginMember(now, extra, input.plugins, p);
    PluginMember(now, extra, input.plugins, q);
    PluginKeysDistinct(t, now, extra, input.plugins);
    NoDuplicatesFromKeys(PluginKeyOf(), input.plugins);
    OnlyCarrier(t, now, extra, c, p);
    OnlyCarrier(t, now, extra, c, q);
  }

  ghost predicate Carrier(t: ScanTarget, now: Configured, extra: seq<Plugin>, c: Plugin, p: Plugin)
  {
    if FoldedIn(t, c) then c.name in now && p == now[c.name] else p == CachedCopy()(c)
  }

  lemma OnlyCarrier(t: ScanTarget, now: Configured, extra: seq<Plugin>, c: Plugin, q: Plugin)
    requires ValidHost(t.w.host) && c in CacheAt(t).candidates && q.path == c.path
    requires MergeOutcome(t.w.hex, Seed(t), now, CacheAt(t).candidates, ActiveOf(t), extra)
    requires q in extra || exists name :: name in now && q == now[name]
    ensures Carrier(t, now, extra, c, q)
  {
    hide CacheOf, Seed, ActiveOf, MergeOutcome, KeyList, ValidHost, FoldedIn, CachedCopy;
    var d := PathOrigin(t, now, extra, q);
    CandidateIsNoSettings(t, c);
    CandidatePathsDistinct(t);
    SameKeySameElement(PluginPath(), CacheAt(t).candidates, c, d.value);
    if FoldedIn(t, c) { FoldedIsNoCopy(t, now, extra, c); }
    SameNames(t, now, extra);
    assert FoldedIn(t, c) ==> c.name in Seed(t) by { FoldedIsSeeded(t, c); }
  }

  lemma CandidateIsNoSettings(t: ScanTarget, c: Plugin)
    requires ValidHost(t.w.host) && c in CacheAt(t).candidates
    ensures c.path != t.w.host.pseudonym(SettingsPath(t))
  {
    hide Candidate, CacheOf, ValidListing;
    var root := CacheRoot(t.state);
    var places := CandidatePlaces(t);
    var i :| 0 <= i < |places| && Map(Candidate(t.w, root), places)[i] == c;
    CandidateShape(t.w, root, places[i]);
    var dir, settings := PlaceDir(root, places[i]), SettingsPath(t);
    assert |dir| == |t.state| + 5 && |settings| == |t.state| + 1;
  }

  lemma FoldedIsSeeded(t: ScanTarget, c: Plugin)
    ensures FoldedIn(t, c) ==> c.name in Seed(t)
  {
    hide Seed;
  }

  lemma CachedCopyOf(c: Plugin)
    ensures CachedCopy()(c) == c.(cachedOnly := true) && Components(c.(cachedOnly := true)) == Components(c)
  {
  }

  lemma SameNames(t: ScanTarget, now: Configured, extra: seq<Plugin>)
    requires MergeOutcome(t.w.hex, Seed(t), now, CacheAt(t).candidates, ActiveOf(t), extra)
    ensures now.Keys == Seed(t).Keys
  {
  }

  lemma ConfiguredCarries(t: ScanTarget, now: Configured, extra: seq<Plugin>, c: Plugin)
    requires MergeOutcome(t.w.hex, Seed(t), now, CacheAt(t).candidates, ActiveOf(t), extra) && FoldedIn(t, c)
    ensures c.name in now && now[c.name].name == c.name && now[c.name].path == c.path
    ensures Components(now[c.name]) == Components(c)
    ensures !now[c.name].cachedOnly && now[c.name].scope == SCOPE_USER
    ensures now[c.name].activeFor == Seed(t)[c.name].activeFor
  {
    hide CacheOf, Seed, ActiveOf, Installed, LeftOverBag, Components, KeyList;
    ConfiguredEntry(t, now, extra, c.name);
    SeedKeyed(t);
    assert now[c.name] == Folded(t.w.hex, Seed(t)[c.name], CacheAt(t).candidates, ActiveOf(t));
  }

  lemma SeedEnables(t: ScanTarget, name: string)
    requires name in Seed(t)
    ensures (Seed(t)[name].activeFor != "") <==> EnabledBySettings(t, name) && t.installation != ""
  {
    hide Considered, KeyList;
  }

  /** End to end: a component that a cached version bundles has an enablement edge in the built
      graph exactly when settings.json enables the version's composite name for a named
      installation, that version is the one folded in, and its own flags allow it. A version that
      is not folded in is itself never enabled. */
  lemma EnablementEndToEnd(t: ScanTarget, input: Input, now: int, s: Snapshot, c: Plugin) returns (p: Plugin)
    requires ValidTarget(t) && IsScan(t, input) && IsSnapshot(t.w.hex, input, now, s)
    requires c in CacheAt(t).candidates
    ensures CarriedBy(t, input, c, p)
    ensures var g := Context(t.w.hex, input.installation);
      var enabled := EnabledBySettings(t, c.name) && t.installation != "" && FoldedIn(t, c);
      && ComponentsFollow(g, s.edges, Components(c), PluginId(g, p), enabled)
      && (HasEnablement(s.edges, PluginId(g, p)) <==> enabled)
  {
    hide IsScan, IsSnapshot, DistinctKeys, ValidHost, Injective, CacheOf, Seed, Installed, EnabledBySettings;
    hide PluginId, HasEnablement, ComponentsFollow, Components, CachedCopy;
    ScannedKeysDistinct(t, input);
    p := CandidateIsCarried(t, input, c);
    EnablementIsInherited(t.w.hex, input, now, s);
    if FoldedIn(t, c) { SeedEnables(t, c.name); }
  }

  // ---------- no marketplace is made up ----------

  lemma {:induction false} NoneMinted(marketplaces: seq<Marketplace>, plugins: seq<Plugin>)
    requires forall p :: p in plugins ==> p.fromMarketplace == "" || Registered(marketplaces, p.fromMarketplace)
    ensures Minted(marketplaces, plugins) == []
  {
    if plugins != [] { NoneMinted(marketplaces, plugins[..|plugins| - 1]); }
  }

  /** Every marketplace a scanned plugin points at was scanned too, so the graph builder never
      makes up a marketplace node for scanned input. */
  lemma ScannedNeverMints(t: ScanTarget, input: Input)
    requires ValidHost(t.w.host) && IsScan(t, input)
    ensures Minted(input.marketplaces, input.plugins) == []
  {
    hide SkillsOf, ServersOf, CacheOf, GapsAt, MergeOutcome, PluginBag, Seed, ActiveOf, Installed, Components;
    hide KeyList, ValidHost, CachedCopy, Minted;
    var now, extra :| MergedInto(t, now, extra, input.plugins);
    CandidatePathsDistinct(t);
    SameMembers(input.marketplaces, CacheAt(t).marketplaces);
    forall p | p in input.plugins ensures p.fromMarketplace == "" || Registered(input.marketplaces, p.fromMarketplace) {
      PluginMember(now, extra, input.plugins, p);
      if p in extra {
        var c := ExtraEntry(t, now, extra, p);
      } else {
        var name :| name in now && p == now[name];
        ConfiguredEntry(t, now, extra, name);
      }
    }
    NoneMinted(input.marketplaces, input.plugins);
  }

  // ---------- what "complete" means ----------

  /** None of the causes that the scan records as a gap occurs: no refused settings file, listing or
      manifest, and no child manifest cut short or malformed. What the scan loses without recording a
      gap is no part of this. */
  ghost predicate NoGapCause(t: ScanTarget)
  {
    && !t.w.host.read(SettingsPath(t)).ReadRefused?
    && (forall scope :: scope in SCOPES ==> Clean(t.w, ScopeRoot(t, scope), scope))
    && Clean(t.w, PersonalRoot(t), SCOPE_USER)
    && CacheClean(t.w, t.state)
  }

  lemma {:induction false} ScopeTotals(t: ScanTarget, scopes: seq<string>)
    ensures TotalOf(ScopeGaps(t, scopes)) >= 0
    ensures TotalOf(ScopeGaps(t, scopes)) == 0 <==>
      !t.w.host.read(SettingsPath(t)).ReadRefused?
      && forall scope :: scope in scopes ==> Clean(t.w, ScopeRoot(t, scope), scope)
  {
    hide ScanOf, Clean, CoverageGaps.Merged, Added, TotalOf;
    if scopes == [] {
      TotalsAdd(map[], map[], RootGap(t.w.host, SettingsPath(t)));
      EmptyTotal();
    } else {
      var n := |scopes| - 1;
      assert scopes == scopes[..n] + [scopes[n]];
      ScopeTotals(t, scopes[..n]);
      ZeroMeansClean(t.w, ScopeRoot(t, scopes[n]), scopes[n]);
      TotalsAdd(ScopeGaps(t, scopes[..n]), ScopeScan(t, scopes[n]).gaps, UNREADABLE);
    }
  }

  lemma EmptyTotal()
    ensures TotalOf(map[]) == 0
  {
  }

  lemma ScanTotal(t: ScanTarget)
    requires ValidHost(t.w.host)
    ensures TotalOf(GapsAt(t)) >= 0
    ensures TotalOf(GapsAt(t)) == 0 <==> NoGapCause(t)
  {
    hide ScanOf, Clean, CoverageGaps.Merged, TotalOf, CacheOf, CacheClean, ScopeGaps, ValidHost;
    var roots, personal := ScopeGaps(t, SCOPES), PersonalScan(t).gaps;
    ScopeTotals(t, SCOPES);
    ZeroMeansClean(t.w, PersonalRoot(t), SCOPE_USER);
    ZeroMeansCacheClean(t.w, t.state);
    TotalsAdd(roots, personal, UNREADABLE);
    TotalsAdd(CoverageGaps.Merged(roots, personal), CacheAt(t).gaps, UNREADABLE);
  }

  /** "complete" is reported exactly when there is a component and none of the causes that the scan
      records as a gap occurs; "unknown" exactly when there is no component at all. */
  lemma CompleteIff(t: ScanTarget, input: Input, now: int, previous: Snapshot, s: Snapshot, d: Diff)
    requires ValidHost(t.w.host) && IsScan(t, input) && IsSnapshot(t.w.hex, input, now, s) && IsDiff(previous, s, d)
    ensures d.completeness == Complete <==> HasComponent(s.nodes) && NoGapCause(t)
    ensures d.completeness == Unknown <==> !HasComponent(s.nodes)
  {
    hide NodeBag, EdgeBag, PartsOf, GapsAt, TotalOf, NoGapCause, SkillsOf, ServersOf, CacheOf, MergedInto;
    hide ValidHost, FingerprintParts, HasComponent;
    ScanTotal(t);
  }

  /** A complete scan accounts for every entry of every skill root it could list: each is a skill
      or a plain directory without a SKILL.md. */
  lemma CompleteAccountsForRoots(t: ScanTarget, input: Input, now: int, previous: Snapshot, s: Snapshot, d: Diff,
                                 scope: string)
    requires ValidHost(t.w.host) && IsScan(t, input) && IsSnapshot(t.w.hex, input, now, s) && IsDiff(previous, s, d)
    requires d.completeness == Complete && scope in SCOPES && t.w.host.probe(ScopeRoot(t, scope)).Present?
    ensures t.w.host.list(ScopeRoot(t, scope)).Listed?
    ensures CountOf(IsCandidate(SkillVisit(t.w, ScopeRoot(t, scope), scope)),
                    t.w.host.list(ScopeRoot(t, scope)).entries) ==
      |ScopeScan(t, scope).skills|
      + CountOf(IsAbsent(SkillVisit(t.w, ScopeRoot(t, scope), scope)), t.w.host.list(ScopeRoot(t, scope)).entries)
    ensures forall skill :: skill in ScopeScan(t, scope).skills ==> skill in input.skills
  {
    hide IsSnapshot, IsDiff, SkillsOf, ServersOf, CacheOf, MergedInto, GapsAt, ValidHost, ScanOf, CacheClean;
    hide HasComponent;
    CompleteIff(t, input, now, previous, s, d);
    ZeroMeansClean(t.w, ScopeRoot(t, scope), scope);
    NothingSkippedSilently(t.w, ScopeRoot(t, scope), scope);
    forall skill | skill in ScopeScan(t, scope).skills ensures skill in input.skills {
      ScopeSkillsMember(t, SCOPES, scope, skill);
      SkillsAreListed(t, skill);
    }
  }

  lemma {:induction false} ScopeSkillsMember(t: ScanTarget, scopes: seq<string>, scope: string, skill: SkillDescriptor)
    requires scope in scopes && skill in ScopeScan(t, scope).skills
    ensures skill in ScopeSkills(t, scopes)
  {
    hide ScanOf;
    var n := |scopes| - 1;
    if scope != scopes[n] { ScopeSkillsMember(t, scopes[..n], scope, skill); }
  }

  lemma SkillsAreListed(t: ScanTarget, skill: SkillDescriptor)
    requires skill in ScopeSkills(t, SCOPES)
    ensures skill in SkillsOf(t)
  {
  }

  // ---------- personal skills ----------

  function ReservedOf(skills: seq<SkillDescriptor>): seq<SkillDescriptor>
  {
    if skills == [] then []
    else
      var before, s := ReservedOf(skills[..|skills| - 1]), skills[|skills| - 1];
      if Reserved(s.name) then before + [s] else before
  }

  lemma {:induction false} ReservedSplit(skills: seq<SkillDescriptor>)
    ensures |skills| == |Unreserved(skills)| + |ReservedOf(skills)|
  {
    hide Reserved;
    if skills != [] { ReservedSplit(skills[..|skills| - 1]); }
  }

  /** The personal root loses skills without a gap: exactly those whose declared name, whatever
      their directory is called, is the name of a scope. Everything else is accounted for. */
  lemma PersonalSkillsAccounted(t: ScanTarget)
    requires t.w.host.probe(PersonalRoot(t)).Present? && t.w.host.list(PersonalRoot(t)).Listed?
    ensures var entries, scan := t.w.host.list(PersonalRoot(t)).entries, PersonalScan(t);
      CountOf(IsCandidate(SkillVisit(t.w, PersonalRoot(t), SCOPE_USER)), entries) ==
        |Unreserved(scan.skills)| + |ReservedOf(scan.skills)| + TotalOf(scan.gaps)
        + CountOf(IsAbsent(SkillVisit(t.w, PersonalRoot(t), SCOPE_USER)), entries)
    ensures ValidHost(t.w.host) ==>
      forall s :: s in PersonalScan(t).skills ==> (s in SkillsOf(t) <==> !Reserved(s.name))
  {
    hide ScanOf, Reserved, ValidHost;
    NothingSkippedSilently(t.w, PersonalRoot(t), SCOPE_USER);
    ReservedSplit(PersonalScan(t).skills);
    if ValidHost(t.w.host) {
      forall s | s in PersonalScan(t).skills ensures s in SkillsOf(t) <==> !Reserved(s.name) {
        PersonalSkillKept(t, s);
      }
    }
  }

  lemma PersonalSkillKept(t: ScanTarget, s: SkillDescriptor)
    requires ValidHost(t.w.host) && s in PersonalScan(t).skills
    ensures s in SkillsOf(t) <==> !Reserved(s.name)
  {
    hide ValidHost, ScanOf, SkillOf, ScopeSkills, Unreserved, Reserved;
    ScannedPathsDistinct(t.w, PersonalRoot(t), SCOPE_USER);
    UnreservedDistinct(PersonalScan(t).skills);
    ScopeSkillsDistinct(t, SCOPES);
    ScannedSkillsOf(t.w, PersonalRoot(t), SCOPE_USER);
    forall r | r in ScopeSkills(t, SCOPES) ensures r != s {
      var scope :| scope in SCOPES && SkillOf(t.w, ScopeRoot(t, scope), scope, r);
      assert |ScopeRoot(t, scope)| == |PersonalRoot(t)| + 1;
      RootsApart(t, ScopeRoot(t, scope), scope, r, PersonalRoot(t), SCOPE_USER, s);
    }
  }

  // ---------- ingestion ----------

  /** The graph of a scan has no dangling edge, and repeats a node or edge id only if some bundled
      server's declaration lists a tool twice: settings.json never does. */
  lemma ScannedGraphIsSound(t: ScanTarget, input: Input, now: int, s: Snapshot)
    requires ValidTarget(t) && IsScan(t, input) && IsSnapshot(t.w.hex, input, now, s)
    ensures forall e :: e in s.edges ==>
      (exists n :: n in s.nodes && n.id == e.from) && exists n :: n in s.nodes && n.id == e.to
    ensures NoDuplicates(Map(IdOf(), s.nodes)) <==>
      forall p, c :: p in input.plugins && c in Components(p) ==> NoDuplicates(Tools(c))
    ensures NoDuplicates(Map(IdOf(), s.nodes)) ==> NoDuplicates(Map(EdgeIdOf(), s.edges))
  {
    hide IsSnapshot, DistinctKeys, ValidHost, Injective, IsScan, Components, Standalone, Tools, NoDuplicates, Map;
    ScannedKeysDistinct(t, input);
    EndpointsAdmitted(t.w.hex, input, now, s);
    NodesAdmittedIff(t.w.hex, input, now, s);
    StandaloneToolsDistinct(t, input);
    if ToolsDistinct(input) { EdgesAdmitted(t.w.hex, input, now, s); }
  }

  lemma StandaloneToolsDistinct(t: ScanTarget, input: Input)
    requires IsScan(t, input)
    ensures forall c :: c in Standalone(input) ==> NoDuplicates(Tools(c))
  {
    hide SkillsOf, CacheOf, MergedInto, GapsAt, Considered;
    forall c | c in Standalone(input) ensures Tools(c) == [] {
      if c in input.servers {
        var names := Considered(SettingsOf(t).value.servers.Keys);
        var i :| 0 <= i < |names| && input.servers[i] == c;
      }
    }
  }

  // ---------- scan and build ----------

  function EmptyInput(t: ScanTarget): Input
  {
    Input(t.installation, [], [], [], [], [], [], [], [], map[])
  }

  /** Adapter.Inventory: the scan, then the graph. It needs an installation id; without a usable
      host the graph is that of an empty input. */
  method Inventory(t: ScanTarget, possible: bool, now: int) returns (r: Option<Snapshot>)
    requires ValidTarget(t)
    ensures r.None? <==> t.installation == ""
    ensures r.Some? ==>
      exists input :: (if possible then IsScan(t, input) else input == EmptyInput(t))
        && IsSnapshot(t.w.hex, input, now, r.value)
  {
    hide IsScan, IsSnapshot, ValidHost, Injective;
    if t.installation == "" { return None; }
    var input, scanned := ScanHostInventory(t, possible);
    if possible { NoTargets(t, input); }
    var gaps := new Gaps();
    gaps.Merge(input.gaps);
    MergedFromEmpty(input.gaps);
    var built := GraphBuilder.BuildInventorySnapshot(t.w.hex, input, now, gaps);
    return Some(built.snapshot);
  }

  lemma NoTargets(t: ScanTarget, input: Input)
    requires IsScan(t, input)
    ensures input.targets == []
  {
  }

  lemma MergedFromEmpty(tally: Tally)
    ensures CoverageGaps.Merged(map[], tally) == tally
  {
  }
}
