/** The gap tally of a whole scan, class by class: what each number counts, said of the host alone. */
module GapCauses {
  import opened Ordering
  import opened CoverageGaps
  import opened HostTree
  import opened Visits
  import opened SkillScan
  import opened BundleScan
  import opened ScanCauses
  import opened CacheScan
  import opened CacheBounds
  import opened HostScan
  import opened InventoryTypes
  import opened InventoryGraph

  // ---------- one root ----------

  /** One gap for a listing that could not be had: its class says whether the directory is a link. */
  function ListingGap(w: World, dir: Path, gap: GapClass): nat
  {
    if gap == (if w.host.linked(dir) then "unresolvable_symlink" else "unreadable_component_manifest") then 1 else 0
  }

  function SkillGaps(w: World, root: Path, gap: GapClass): nat
  {
    match w.host.probe(root)
    case Missing => 0
    case Refused => ListingGap(w, root, gap)
    case Present =>
      match w.host.list(root)
      case ListRefused => ListingGap(w, root, gap)
      case Listed(entries) => CountOf(GapOf(w, root, gap), entries)
  }

  lemma RootCounted(w: World, root: Path, scope: string, gap: GapClass)
    ensures Count(ScanOf(w, root, scope).gaps, gap) == SkillGaps(w, root, gap)
  {
    hide CountOf, GapOf, GapsIn, SkillVisit;
    match w.host.probe(root) {
      case Missing =>
      case Refused => RefusedRootCounted(w, root, scope, gap);
      case Present =>
        if w.host.list(root).Listed? {
          SkillGapsCounted(w, root, scope, gap);
        } else {
          RefusedRootCounted(w, root, scope, gap);
        }
    }
  }

  /** The files of a markdown root that were not taken in, among those before the 256th that was. */
  function FileGaps(w: World, root: Path, gap: GapClass, entries: seq<Entry>): nat
  {
    if entries == [] then 0
    else
      var front, last := entries[..|entries| - 1], entries[|entries| - 1];
      FileGaps(w, root, gap, front)
      + if CountOf(ReadableMarkdown(w, root), front) < 256 && MarkdownGap(w, root, gap)(last) then 1 else 0
  }

  function MarkdownGaps(w: World, root: Path, gap: GapClass): nat
  {
    match w.host.probe(root)
    case Missing => 0
    case Refused => ListingGap(w, root, gap)
    case Present =>
      match w.host.list(root)
      case ListRefused => ListingGap(w, root, gap)
      case Listed(entries) => FileGaps(w, root, gap, entries)
  }

  lemma {:induction false} CountGrows(p: Entry -> bool, entries: seq<Entry>, k: nat)
    requires k <= |entries|
    ensures CountOf(p, entries[..k]) <= CountOf(p, entries)
  {
    if k == |entries| {
      assert entries[..k] == entries;
    } else {
      var n := |entries| - 1;
      CountGrows(p, entries[..n], k);
      assert entries[..n][..k] == entries[..k];
    }
  }

  lemma {:induction false} FilesBeforeTheStop(w: World, root: Path, gap: GapClass, entries: seq<Entry>, k: nat)
    requires StopsAt(w, root, entries, k)
    ensures FileGaps(w, root, gap, entries) == CountOf(MarkdownGap(w, root, gap), entries[..k])
  {
    hide ReadableMarkdown, MarkdownGap;
    if entries != [] {
      var n := |entries| - 1;
      var front := entries[..n];
      assert forall j :: 0 <= j <= n ==> front[..j] == entries[..j];
      if k <= n {
        FilesBeforeTheStop(w, root, gap, front, k);
        CountGrows(ReadableMarkdown(w, root), front, k);
      } else {
        assert front[..n] == front && entries[..k] == entries;
        FilesBeforeTheStop(w, root, gap, front, n);
      }
    }
  }

  lemma MarkdownCounted(w: World, root: Path, gap: GapClass)
    ensures Count(ItemsOf(w, root).gaps, gap) == MarkdownGaps(w, root, gap)
  {
    hide CountOf, MarkdownGap, GapsIn, MarkdownVisit, FileGaps, StopsAt, Reached, ReadableMarkdown;
    match w.host.probe(root) {
      case Missing =>
      case Refused => RefusedRootCounted(w, root, "", gap);
      case Present =>
        if w.host.list(root).Listed? {
          var k := MarkdownDeclared(w, root);
          FilesBeforeTheStop(w, root, gap, w.host.list(root).entries, k);
        } else {
          RefusedRootCounted(w, root, "", gap);
        }
    }
  }

  function FileGap<T>(w: World, path: Path, parse: string -> Option<T>, gap: GapClass): nat
  {
    match w.host.read(path)
    case ReadMissing => 0
    case ReadRefused => if gap == "unreadable_component_manifest" then 1 else 0
    case Content(text, truncated) =>
      if truncated then if gap == "truncated_component_manifest" then 1 else 0
      else if parse(text).None? && gap == "unparseable_component_manifest" then 1 else 0
  }

  lemma FileCounted<T>(w: World, path: Path, parse: string -> Option<T>, gap: GapClass)
    ensures Count(ManifestGaps(w, path, parse), gap) == FileGap(w, path, parse, gap)
  {
    ManifestGapsCounted(w, path, parse, gap);
  }

  // ---------- the plugin cache ----------

  /** A version directory adds the gaps of its skills, agents, commands, hooks and servers. */
  function VersionGaps(w: World, dir: Path, gap: GapClass): nat
  {
    SkillGaps(w, dir + ["skills"], gap) + MarkdownGaps(w, dir + ["agents"], gap)
    + MarkdownGaps(w, dir + ["commands"], gap)
    + FileGap(w, dir + ["hooks", "hooks.json"], w.host.hookEvents, gap)
    + FileGap(w, dir + [".mcp.json"], w.host.declarations, gap)
  }

  lemma VersionCounted(w: World, dir: Path, gaps: Tally, gap: GapClass)
    ensures Count(WithPlaceGaps(w, dir, gaps), gap) == Count(gaps, gap) + VersionGaps(w, dir, gap)
  {
    hide ScanOf, ItemsOf, ManifestGaps, SkillGaps, MarkdownGaps, FileGap, CoverageGaps.Merged;
    var skills, agents, commands := ScanOf(w, SkillsDir(dir), SCOPE_PLUGIN_CACHE).gaps,
      ItemsOf(w, AgentsRoot(dir)).gaps, ItemsOf(w, CommandsRoot(dir)).gaps;
    var hooks := ManifestGaps(w, HooksPath(dir), w.host.hookEvents);
    var servers := ManifestGaps(w, ServersPath(dir), w.host.declarations);
    var one := CoverageGaps.Merged(gaps, skills);
    var two := CoverageGaps.Merged(one, agents);
    var three := CoverageGaps.Merged(two, commands);
    CountsAdd(gaps, skills, gap);
    CountsAdd(one, agents, gap);
    CountsAdd(two, commands, gap);
    CountsAdd(three, hooks, gap);
    CountsAdd(CoverageGaps.Merged(three, hooks), servers, gap);
    RootCounted(w, SkillsDir(dir), SCOPE_PLUGIN_CACHE, gap);
    MarkdownCounted(w, AgentsRoot(dir), gap);
    MarkdownCounted(w, CommandsRoot(dir), gap);
    FileCounted(w, HooksPath(dir), w.host.hookEvents, gap);
    FileCounted(w, ServersPath(dir), w.host.declarations, gap);
  }

  function VersionsGaps(w: World, root: Path, places: seq<Place>, gap: GapClass): nat
  {
    if places == [] then 0
    else
      var front, p := places[..|places| - 1], places[|places| - 1];
      VersionsGaps(w, root, front, gap) + VersionGaps(w, root + [p.market, p.folder, p.version], gap)
  }

  /** The listings of version folders that were refused, of the folders come to before 1024 versions. */
  function RefusedFolders(w: World, root: Path, market: string, folders: seq<string>, before: nat, gap: GapClass): nat
  {
    if folders == [] then 0
    else
      var front, last := folders[..|folders| - 1], folders[|folders| - 1];
      RefusedFolders(w, root, market, front, before, gap)
      + if before + |FoldersPlaces(w, root, 8, market, front)| < 1024 && w.host.list(root + [market, last]).ListRefused?
        then ListingGap(w, root + [market, last], gap) else 0
  }

  /** The listings that were refused, of the marketplaces and of the folders come to. */
  function RefusedListings(w: World, root: Path, markets: seq<string>, gap: GapClass): nat
  {
    if markets == [] then 0
    else
      var front, last := markets[..|markets| - 1], markets[|markets| - 1];
      RefusedListings(w, root, front, gap) + RefusedMarket(w, root, last, |AllPlaces(w, root, 8, front)|, gap)
  }

  function RefusedMarket(w: World, root: Path, market: string, before: nat, gap: GapClass): nat
  {
    match Names(w.host, root + [market])
    case None => ListingGap(w, root + [market], gap)
    case Some(folders) => RefusedFolders(w, root, market, folders, before, gap)
  }

  /** A walk whose every gap is a refused listing counted so far or a gap of a version it came to. */
  predicate Tallied(w: World, root: Path, walk: Walk, gap: GapClass, refused: nat)
  {
    Count(walk.gaps, gap) == refused + VersionsGaps(w, root, walk.places, gap)
  }

  lemma ListingCounted(w: World, dir: Path, gaps: Tally, gap: GapClass)
    ensures Count(Added(gaps, RootGap(w.host, dir)), gap) == Count(gaps, gap) + ListingGap(w, dir, gap)
  {
    ClassNames();
  }

  lemma VersionTallied(w: World, root: Path, p: Place, walk: Walk, gap: GapClass, refused: nat)
    requires Tallied(w, root, walk, gap, refused)
    ensures Tallied(w, root, AfterVersion(w, root, p, walk), gap, refused)
  {
    hide WithPlaceGaps, VersionGaps;
    VersionCounted(w, PlaceDir(root, p), walk.gaps, gap);
    assert (walk.places + [p])[..|walk.places|] == walk.places;
  }

  lemma {:induction false} VersionsTallied(w: World, root: Path, market: string, folder: string, versions: seq<string>,
                                           walk: Walk, gap: GapClass, refused: nat)
    requires Tallied(w, root, walk, gap, refused)
    ensures Tallied(w, root, AfterVersions(w, root, market, folder, versions, walk), gap, refused)
  {
    hide Tallied, AfterVersion;
    if versions != [] {
      var n := |versions| - 1;
      VersionsTallied(w, root, market, folder, versions[..n], walk, gap, refused);
      VersionTallied(w, root, Place(market, folder, versions[n]),
                     AfterVersions(w, root, market, folder, versions[..n], walk), gap, refused);
    }
  }

  lemma FolderTallied(w: World, root: Path, market: string, folder: string, walk: Walk, gap: GapClass, refused: nat)
    requires Tallied(w, root, walk, gap, refused)
    ensures Tallied(w, root, AfterFolder(w, root, market, folder, walk), gap,
      refused + if |walk.places| < 1024 && w.host.list(root + [market, folder]).ListRefused?
                then ListingGap(w, root + [market, folder], gap) else 0)
  {
    hide AfterVersions, Added, ListingGap;
    if !Full(walk) {
      match Names(w.host, root + [market, folder]) {
        case None => ListingCounted(w, root + [market, folder], walk.gaps, gap);
        case Some(versions) =>
          VersionsTallied(w, root, market, folder, First(MAX_CACHE_VERSIONS, versions), walk, gap, refused);
      }
    }
  }

  lemma {:induction false} FoldersTallied(w: World, root: Path, market: string, folders: seq<string>, walk: Walk,
                                          gap: GapClass, refused: nat, before: seq<Place>)
    requires walk.places == First(MAX_CACHE_PLUGINS, before) && Tallied(w, root, walk, gap, refused)
    ensures Tallied(w, root, AfterFolders(w, root, market, folders, walk), gap,
                    refused + RefusedFolders(w, root, market, folders, |before|, gap))
  {
    hide Tallied, AfterFolder, FoldersPlaces, ListingGap;
    if folders != [] {
      var front, last := folders[..|folders| - 1], folders[|folders| - 1];
      FoldersTallied(w, root, market, front, walk, gap, refused, before);
      var walked := AfterFolders(w, root, market, front, walk);
      var so := refused + RefusedFolders(w, root, market, front, |before|, gap);
      FolderTallied(w, root, market, last, walked, gap, so);
      FoldersClosed(w, root, market, front, walk);
      FirstConcat(MAX_CACHE_PLUGINS, before, FoldersPlaces(w, root, MAX_CACHE_VERSIONS, market, front));
      assert |walked.places| < 1024 <==> |before| + |FoldersPlaces(w, root, 8, market, front)| < 1024;
    }
  }

  lemma {:induction false} MarketsTallied(w: World, root: Path, markets: seq<string>, gap: GapClass)
    ensures Tallied(w, root, AfterMarkets(w, root, markets), gap, RefusedListings(w, root, markets, gap))
  {
    hide Tallied, AfterMarket, Names, RefusedMarket, AllPlaces;
    if markets == [] {
      NothingTallied(w, root, gap);
    } else {
      var front, last := markets[..|markets| - 1], markets[|markets| - 1];
      MarketsTallied(w, root, front, gap);
      WalkClosed(w, root, front);
      MarketTallied(w, root, last, AfterMarkets(w, root, front), gap, RefusedListings(w, root, front, gap),
                    AllPlaces(w, root, MAX_CACHE_VERSIONS, front));
    }
  }

  lemma MarketTallied(w: World, root: Path, market: string, walk: Walk, gap: GapClass, refused: nat, before: seq<Place>)
    requires walk.places == First(MAX_CACHE_PLUGINS, before) && Tallied(w, root, walk, gap, refused)
    ensures Tallied(w, root, AfterMarket(w, root, market, walk), gap,
                    refused + RefusedMarket(w, root, market, |before|, gap))
  {
    hide Tallied, AfterFolders, Names, Added, ListingGap, RefusedFolders, First;
    match Names(w.host, root + [market]) {
      case None => RefusalTallied(w, root, root + [market], walk, gap, refused);
      case Some(folders) => FoldersTallied(w, root, market, folders, walk, gap, refused, before);
    }
  }

  lemma NothingTallied(w: World, root: Path, gap: GapClass)
    ensures Tallied(w, root, Walk([], map[]), gap, 0)
  {
  }

  lemma RefusalTallied(w: World, root: Path, dir: Path, walk: Walk, gap: GapClass, refused: nat)
    requires Tallied(w, root, walk, gap, refused)
    ensures Tallied(w, root, walk.(gaps := Added(walk.gaps, RootGap(w.host, dir))), gap,
                    refused + ListingGap(w, dir, gap))
  {
    hide Added, ListingGap;
    ListingCounted(w, dir, walk.gaps, gap);
  }

  /** The cache scan comes to its first 64 marketplaces, and to their first 1024 version directories. */
  function CacheGaps(w: World, root: Path, gap: GapClass): nat
  {
    match w.host.probe(root)
    case Missing => 0
    case Refused => ListingGap(w, root, gap)
    case Present =>
      match Names(w.host, root)
      case None => ListingGap(w, root, gap)
      case Some(names) =>
        RefusedListings(w, root, First(64, names), gap)
        + VersionsGaps(w, root, First(1024, AllPlaces(w, root, 8, First(64, names))), gap)
  }

  lemma CacheCounted(w: World, state: Path, gap: GapClass)
    ensures Count(CacheOf(w, state).gaps, gap) == CacheGaps(w, state + ["plugins"] + ["cache"], gap)
  {
    hide AfterMarkets, Names, Added, ListingGap, RefusedListings, VersionsGaps, Contributing, Candidate, AllPlaces;
    var root := state + ["plugins"] + ["cache"];
    assert root == CacheRoot(state);
    ListingCounted(w, root, map[], gap);
    if w.host.probe(root).Present? && Names(w.host, root).Some? {
      var markets := First(64, Names(w.host, root).value);
      MarketsTallied(w, root, markets, gap);
      WalkClosed(w, root, markets);
    }
  }

  // ---------- the whole scan ----------

  lemma CountsAdd(tally: Tally, other: Tally, gap: GapClass)
    ensures Count(CoverageGaps.Merged(tally, other), gap) == Count(tally, gap) + Count(other, gap)
  {
  }

  /** The settings file leaves a gap only when it is refused. */
  function SettingsGap(t: ScanTarget, gap: GapClass): nat
  {
    var path := t.state + ["settings.json"];
    if t.w.host.read(path).ReadRefused? then ListingGap(t.w, path, gap) else 0
  }

  /** A scanned input counts, under each class, the settings file if it was refused, the gaps of the four
      scopes' skill roots and of the personal one, and those of the plugin cache: each cause once. */
  lemma InputGapsCounted(t: ScanTarget, input: Input, gap: GapClass)
    requires IsScan(t, input)
    ensures var w, skills := t.w, t.state + ["skills"];
      Count(input.gaps, gap) ==
        SettingsGap(t, gap)
        + SkillGaps(w, skills + ["user"], gap) + SkillGaps(w, skills + ["repository"], gap)
        + SkillGaps(w, skills + ["admin"], gap) + SkillGaps(w, skills + ["system"], gap)
        + SkillGaps(w, skills, gap)
        + CacheGaps(w, t.state + ["plugins"] + ["cache"], gap)
  {
    hide SkillsOf, ServersOf, CacheOf, MergedInto, ScanOf, SkillGaps, CacheGaps, CoverageGaps.Merged;
    hide ListingGap, ScopeGaps;
    hide Ordered;
    CacheCounted(t.w, t.state, gap);
    RootCounted(t.w, PersonalRoot(t), SCOPE_USER, gap);
    ScopesCounted(t, gap);
    CountsAdd(ScopeGaps(t, SCOPES), PersonalScan(t).gaps, gap);
    CountsAdd(CoverageGaps.Merged(ScopeGaps(t, SCOPES), PersonalScan(t).gaps), CacheAt(t).gaps, gap);
  }

  function ScopesGaps(t: ScanTarget, scopes: seq<string>, gap: GapClass): nat
  {
    if scopes == [] then 0
    else ScopesGaps(t, scopes[..|scopes| - 1], gap) + SkillGaps(t.w, t.state + ["skills"] + [scopes[|scopes| - 1]], gap)
  }

  lemma SettingsCounted(t: ScanTarget, gap: GapClass)
    ensures Count(SettingsGaps(t), gap) ==
      SettingsGap(t, gap)
  {
    ListingCounted(t.w, SettingsPath(t), map[], gap);
  }

  lemma {:induction false} ScopeRootsCounted(t: ScanTarget, scopes: seq<string>, gap: GapClass)
    ensures Count(ScopeGaps(t, scopes), gap) == Count(SettingsGaps(t), gap) + ScopesGaps(t, scopes, gap)
  {
    hide ScanOf, SkillGaps, CoverageGaps.Merged, SettingsGaps;
    if scopes != [] {
      var front, last := scopes[..|scopes| - 1], scopes[|scopes| - 1];
      ScopeRootsCounted(t, front, gap);
      RootCounted(t.w, ScopeRoot(t, last), last, gap);
      CountsAdd(ScopeGaps(t, front), ScopeScan(t, last).gaps, gap);
    }
  }

  lemma ScopesSnoc(t: ScanTarget, front: seq<string>, last: string, gap: GapClass)
    ensures ScopesGaps(t, front + [last], gap) ==
      ScopesGaps(t, front, gap) + SkillGaps(t.w, t.state + ["skills"] + [last], gap)
  {
    hide SkillGaps;
    assert (front + [last])[..|front|] == front;
  }

  lemma ScopesCounted(t: ScanTarget, gap: GapClass)
    ensures var skills := t.state + ["skills"];
      Count(ScopeGaps(t, SCOPES), gap) ==
        SettingsGap(t, gap)
        + SkillGaps(t.w, skills + ["user"], gap) + SkillGaps(t.w, skills + ["repository"], gap)
        + SkillGaps(t.w, skills + ["admin"], gap) + SkillGaps(t.w, skills + ["system"], gap)
  {
    hide SkillGaps, ScopeGaps, SettingsGaps, ListingGap;
    SettingsCounted(t, gap);
    ScopeRootsCounted(t, SCOPES, gap);
    var a, b, c, d := "user", "repository", "admin", "system";
    assert SCOPES == [a, b, c] + [d] && [a, b, c] == [a, b] + [c] && [a, b] == [a] + [b] && [a] == [] + [a];
    ScopesSnoc(t, [a, b, c], d, gap);
    ScopesSnoc(t, [a, b], c, gap);
    ScopesSnoc(t, [a], b, gap);
    ScopesSnoc(t, [], a, gap);
  }
}
