/** scanPluginCache (internal/claudeadapter/inventoryscan.go): the bounded walk of
    plugins/cache/<marketplace>/<folder>/<version>, three nested loops under one budget. */
module CacheScan {
  import opened Ordering
  import opened CoverageGaps
  import opened InventoryTypes
  import opened InventoryGraph
  import opened HostTree
  import opened SkillScan
  import opened BundleScan

  /** One version directory. */
  datatype Place = Place(market: string, folder: string, version: string)

  function CacheRoot(state: Path): Path { state + ["plugins", "cache"] }

  function PlaceDir(root: Path, p: Place): Path { root + [p.market, p.folder, p.version] }

  /** readPluginManifestName: the folder name stands in for a manifest that says nothing. */
  function DeclaredName(w: World, dir: Path, fallback: string): string
  {
    match w.host.read(dir + [".claude-plugin", "plugin.json"])
    case Content(text, false) =>
      (match w.host.manifestName(text) case Some(name) => (if name == "" then fallback else name) case None => fallback)
    case _ => fallback
  }

  function SkillsDir(dir: Path): Path { dir + ["skills"] }

  ghost function MakeCandidate(w: World, root: Path, p: Place): Plugin
  {
    var dir := PlaceDir(root, p);
    var composite := DeclaredName(w, dir, p.folder) + "@" + p.market;
    Plugin(composite, p.version, SCOPE_PLUGIN_CACHE, false, p.market, "", w.host.pseudonym(dir),
           w.hex(["plugin-cache", composite, p.version]),
           ScanOf(w, SkillsDir(dir), SCOPE_PLUGIN_CACHE).skills,
           CommandsOf(w, dir), AgentsOf(w, dir), HooksOf(w, dir), BundledServersOf(w, dir))
  }

  ghost function Candidate(w: World, root: Path): Place -> Plugin
  {
    (p: Place) => MakeCandidate(w, root, p)
  }

  function CacheMarket(w: World, root: Path): string -> Marketplace
  {
    (m: string) => Marketplace(m, w.host.pseudonym(root + [m]), w.hex(["marketplace-cache", m]))
  }

  // ---------- the walk as a function of what has been walked ----------

  datatype Walk = Walk(places: seq<Place>, gaps: Tally)

  /** A tally with the gaps of the five child scans merged into it, in their order. */
  function WithPlaceGaps(w: World, dir: Path, gaps: Tally): Tally
  {
    Merged(Merged(Merged(Merged(Merged(gaps, ScanOf(w, SkillsDir(dir), SCOPE_PLUGIN_CACHE).gaps),
      ItemsOf(w, AgentsRoot(dir)).gaps), ItemsOf(w, CommandsRoot(dir)).gaps),
      ManifestGaps(w, HooksPath(dir), w.host.hookEvents)), ManifestGaps(w, ServersPath(dir), w.host.declarations))
  }

  predicate Full(walk: Walk)
  {
    |walk.places| >= MAX_CACHE_PLUGINS
  }

  function AfterVersion(w: World, root: Path, p: Place, walk: Walk): Walk
  {
    if Full(walk) then walk else Walk(walk.places + [p], WithPlaceGaps(w, PlaceDir(root, p), walk.gaps))
  }

  function AfterVersions(w: World, root: Path, market: string, folder: string, versions: seq<string>, walk: Walk): Walk
  {
    if versions == [] then walk
    else
      var n := |versions| - 1;
      AfterVersion(w, root, Place(market, folder, versions[n]),
                   AfterVersions(w, root, market, folder, versions[..n], walk))
  }

  function AfterFolder(w: World, root: Path, market: string, folder: string, walk: Walk): Walk
  {
    if Full(walk) then walk
    else
      var dir := root + [market, folder];
      match Names(w.host, dir)
      case None => walk.(gaps := Added(walk.gaps, RootGap(w.host, dir)))
      case Some(versions) => AfterVersions(w, root, market, folder, First(MAX_CACHE_VERSIONS, versions), walk)
  }

  function AfterFolders(w: World, root: Path, market: string, folders: seq<string>, walk: Walk): Walk
  {
    if folders == [] then walk
    else
      var n := |folders| - 1;
      AfterFolder(w, root, market, folders[n], AfterFolders(w, root, market, folders[..n], walk))
  }

  function AfterMarket(w: World, root: Path, market: string, walk: Walk): Walk
  {
    var dir := root + [market];
    match Names(w.host, dir)
    case None => walk.(gaps := Added(walk.gaps, RootGap(w.host, dir)))
    case Some(folders) => AfterFolders(w, root, market, folders, walk)
  }

  function AfterMarkets(w: World, root: Path, markets: seq<string>): Walk
  {
    if markets == [] then Walk([], map[])
    else AfterMarket(w, root, markets[|markets| - 1], AfterMarkets(w, root, markets[..|markets| - 1]))
  }

  /** The marketplaces whose visit added a version directory, in order. */
  function Contributing(w: World, root: Path, markets: seq<string>): seq<string>
  {
    if markets == [] then []
    else
      var n := |markets| - 1;
      var before := Contributing(w, root, markets[..n]);
      if |AfterMarkets(w, root, markets).places| > |AfterMarkets(w, root, markets[..n]).places|
      then before + [markets[n]] else before
  }

  datatype Cache = Cache(marketplaces: seq<Marketplace>, candidates: seq<Plugin>, gaps: Tally, observed: bool)

  /** What scanning the plugin cache returns. */
  ghost function CacheOf(w: World, state: Path): Cache
  {
    var root := CacheRoot(state);
    if w.host.probe(root).Missing? then Cache([], [], map[], false)
    else if w.host.probe(root).Refused? || Names(w.host, root).None? then
      Cache([], [], Added(map[], RootGap(w.host, root)), false)
    else
      var markets := First(MAX_CACHE_MARKETPLACES, Names(w.host, root).value);
      var walk := AfterMarkets(w, root, markets);
      Cache(Map(CacheMarket(w, root), Contributing(w, root, markets)), Map(Candidate(w, root), walk.places), walk.gaps,
            true)
  }

  // ---------- the source's loops ----------

  /** The variables the three loops share. */
  class Walker {
    const w: World
    const root: Path
    var candidates: seq<Plugin>
    var gaps: Tally
    var budget: int
    ghost var walk: Walk

    ghost predicate Valid()
      reads this
    {
      && candidates == Map(Candidate(w, root), walk.places)
      && gaps == walk.gaps
      && budget == MAX_CACHE_PLUGINS - |walk.places|
    }

    constructor (w: World, root: Path)
      ensures this.w == w && this.root == root && Valid() && walk == Walk([], map[])
    {
      this.w, this.root := w, root;
      candidates, gaps, budget, walk := [], map[], MAX_CACHE_PLUGINS, Walk([], map[]);
    }

    method VisitVersion(market: string, folder: string, version: string)
      requires Valid() && ValidHost(w.host) && budget > 0
      modifies this
      ensures Valid() && walk == AfterVersion(w, root, Place(market, folder, version), old(walk))
    {
      hide ScanOf, DeclaredName, ValidHost, Merged, ItemsOf, ManifestGaps, CommandsOf, AgentsOf, HooksOf;
      hide BundledServersOf;
      var place := Place(market, folder, version);
      var dir := PlaceDir(root, place);
      var composite := DeclaredName(w, dir, folder) + "@" + market;
      var skills, skillGaps, _ := ScanSkillRoot(w, SkillsDir(dir), SCOPE_PLUGIN_CACHE);
      gaps := Merged(gaps, skillGaps);
      var subagents, agentGaps := ScanSubagents(w, dir);
      gaps := Merged(gaps, agentGaps);
      var commands, commandGaps := ScanCommands(w, dir);
      gaps := Merged(gaps, commandGaps);
      var hooks, hookGaps := ScanHooks(w, dir);
      gaps := Merged(gaps, hookGaps);
      var servers, serverGaps := ScanServers(w, dir);
      gaps := Merged(gaps, serverGaps);
      var candidate := Plugin(composite, version, SCOPE_PLUGIN_CACHE, false, market, "", w.host.pseudonym(dir),
                              w.hex(["plugin-cache", composite, version]), skills, commands, subagents, hooks, servers);
      assert candidate == MakeCandidate(w, root, place);
      OneMoreCandidate(w, root, walk.places, place);
      candidates := candidates + [candidate];
      budget := budget - 1;
      walk := AfterVersion(w, root, place, walk);
    }

    method VisitFolder(market: string, folder: string)
      requires Valid() && ValidHost(w.host) && budget > 0
      modifies this
      ensures Valid() && walk == AfterFolder(w, root, market, folder, old(walk))
    {
      hide Candidate, AfterVersion, Names, ValidHost, Added;
      var dir := root + [market, folder];
      var listed := ListNames(w.host, dir);
      if listed.None? {
        gaps := Added(gaps, RootGap(w.host, dir));
        walk := walk.(gaps := gaps);
        return;
      }
      var versions := First(MAX_CACHE_VERSIONS, listed.value);
      ghost var start := walk;
      for i := 0 to |versions|
        invariant Valid() && walk == AfterVersions(w, root, market, folder, versions[..i], start)
      {
        if budget <= 0 {
          FullStays(w, root, market, folder, versions, i, start);
          break;
        }
        assert versions[..i + 1][..i] == versions[..i];
        VisitVersion(market, folder, versions[i]);
      }
      assert versions[..|versions|] == versions;
    }

    method VisitMarket(market: string)
      requires Valid() && ValidHost(w.host)
      modifies this
      ensures Valid() && walk == AfterMarket(w, root, market, old(walk))
    {
      hide Candidate, AfterFolder, Names, ValidHost, Added;
      var dir := root + [market];
      var listed := ListNames(w.host, dir);
      if listed.None? {
        gaps := Added(gaps, RootGap(w.host, dir));
        walk := walk.(gaps := gaps);
        return;
      }
      var folders := listed.value;
      ghost var start := walk;
      for i := 0 to |folders|
        invariant Valid() && walk == AfterFolders(w, root, market, folders[..i], start)
      {
        if budget <= 0 {
          FullStaysFull(w, root, market, folders, i, start);
          break;
        }
        assert folders[..i + 1][..i] == folders[..i];
        VisitFolder(market, folders[i]);
      }
      assert folders[..|folders|] == folders;
    }
  }

  lemma OneMoreCandidate(w: World, root: Path, places: seq<Place>, p: Place)
    ensures Map(Candidate(w, root), places + [p]) == Map(Candidate(w, root), places) + [MakeCandidate(w, root, p)]
  {
    hide MakeCandidate;
    MapConcat(Candidate(w, root), places, [p]);
    assert Map(Candidate(w, root), [p]) == [MakeCandidate(w, root, p)];
  }

  lemma {:induction false} FullStays(w: World, root: Path, market: string, folder: string, versions: seq<string>,
                                     i: nat, walk: Walk)
    requires i <= |versions| && Full(AfterVersions(w, root, market, folder, versions[..i], walk))
    ensures AfterVersions(w, root, market, folder, versions, walk) ==
      AfterVersions(w, root, market, folder, versions[..i], walk)
  {
    hide WithPlaceGaps;
    if i < |versions| {
      var n := |versions| - 1;
      assert versions[..n][..i] == versions[..i];
      FullStays(w, root, market, folder, versions[..n], i, walk);
    } else {
      assert versions[..i] == versions;
    }
  }

  lemma {:induction false} FullStaysFull(w: World, root: Path, market: string, folders: seq<string>, i: nat, walk: Walk)
    requires i <= |folders| && Full(AfterFolders(w, root, market, folders[..i], walk))
    ensures AfterFolders(w, root, market, folders, walk) == AfterFolders(w, root, market, folders[..i], walk)
  {
    hide Names, AfterVersions, Added;
    if i < |folders| {
      var n := |folders| - 1;
      assert folders[..n][..i] == folders[..i];
      FullStaysFull(w, root, market, folders[..n], i, walk);
    } else {
      assert folders[..i] == folders;
    }
  }

  method ScanPluginCache(w: World, state: Path)
      returns (marketplaces: seq<Marketplace>, candidates: seq<Plugin>, gaps: Tally, observed: bool)
    requires ValidHost(w.host)
    ensures Cache(marketplaces, candidates, gaps, observed) == CacheOf(w, state)
  {
    hide Candidate, AfterMarket, Names, ValidHost, Added, CacheMarket;
    var root := CacheRoot(state);
    match w.host.probe(root) {
      case Refused => return [], [], Added(map[], RootGap(w.host, root)), false;
      case Missing => return [], [], map[], false;
      case Present =>
    }
    var listed := ListNames(w.host, root);
    if listed.None? { return [], [], Added(map[], RootGap(w.host, root)), false; }
    var markets := First(MAX_CACHE_MARKETPLACES, listed.value);
    var walker := new Walker(w, root);
    marketplaces := [];
    assert markets[..0] == [];
    for i := 0 to |markets|
      invariant walker.w == w && walker.root == root && walker.Valid()
      invariant walker.walk == AfterMarkets(w, root, markets[..i])
      invariant marketplaces == Map(CacheMarket(w, root), Contributing(w, root, markets[..i]))
    {
      var before := |walker.candidates|;
      assert markets[..i + 1][..i] == markets[..i];
      walker.VisitMarket(markets[i]);
      if |walker.candidates| > before {
        var market :=
          Marketplace(markets[i], w.host.pseudonym(root + [markets[i]]), w.hex(["marketplace-cache", markets[i]]));
        CacheMarketIs(w, root, markets[i]);
        MapConcat(CacheMarket(w, root), Contributing(w, root, markets[..i]), [markets[i]]);
        marketplaces := marketplaces + [market];
      }
    }
    assert markets[..|markets|] == markets;
    return marketplaces, walker.candidates, walker.gaps, true;
  }

  lemma CacheMarketIs(w: World, root: Path, m: string)
    ensures CacheMarket(w, root)(m) == Marketplace(m, w.host.pseudonym(root + [m]), w.hex(["marketplace-cache", m]))
    ensures Map(CacheMarket(w, root), [m]) == [CacheMarket(w, root)(m)]
  {
  }
}
