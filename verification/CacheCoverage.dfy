/** What a plugin-cache scan's gap tally says, and what it does not: a total of zero means that
    nothing visited was refused, but the scan's own bounds drop versions without a gap. */
module CacheCoverage {
  import opened Ordering
  import opened CoverageGaps
  import opened InventoryTypes
  import opened InventoryGraph
  import opened HostTree
  import opened SkillScan
  import opened BundleScan
  import opened CacheScan
  import opened CacheBounds

  // ---------- zero gaps ----------

  /** None of the gaps that the five child scans of a version directory record has a cause. */
  ghost predicate PlaceClean(w: World, root: Path, p: Place)
  {
    var dir := PlaceDir(root, p);
    && Clean(w, SkillsDir(dir), SCOPE_PLUGIN_CACHE)
    && MarkdownClean(w, AgentsRoot(dir)) && MarkdownClean(w, CommandsRoot(dir))
    && ManifestClean(w, HooksPath(dir), w.host.hookEvents) && ManifestClean(w, ServersPath(dir), w.host.declarations)
  }

  lemma PlaceTotal(w: World, root: Path, p: Place, gaps: Tally)
    ensures TotalOf(WithPlaceGaps(w, PlaceDir(root, p), gaps)) >= TotalOf(gaps)
    ensures TotalOf(WithPlaceGaps(w, PlaceDir(root, p), gaps)) == TotalOf(gaps) <==> PlaceClean(w, root, p)
  {
    hide Merged, Clean, MarkdownClean, ManifestClean, ScanOf, ItemsOf, ManifestGaps, TotalOf;
    var dir := PlaceDir(root, p);
    var skills, agents, commands := ScanOf(w, SkillsDir(dir), SCOPE_PLUGIN_CACHE).gaps,
      ItemsOf(w, AgentsRoot(dir)).gaps, ItemsOf(w, CommandsRoot(dir)).gaps;
    var hooks, servers := ManifestGaps(w, HooksPath(dir), w.host.hookEvents),
      ManifestGaps(w, ServersPath(dir), w.host.declarations);
    ZeroMeansClean(w, SkillsDir(dir), SCOPE_PLUGIN_CACHE);
    ZeroMeansMarkdownClean(w, AgentsRoot(dir));
    ZeroMeansMarkdownClean(w, CommandsRoot(dir));
    ZeroMeansManifestClean(w, HooksPath(dir), w.host.hookEvents);
    ZeroMeansManifestClean(w, ServersPath(dir), w.host.declarations);
    TotalsAdd(gaps, skills, UNREADABLE);
    TotalsAdd(Merged(gaps, skills), agents, UNREADABLE);
    TotalsAdd(Merged(Merged(gaps, skills), agents), commands, UNREADABLE);
    TotalsAdd(Merged(Merged(Merged(gaps, skills), agents), commands), hooks, UNREADABLE);
    TotalsAdd(Merged(Merged(Merged(Merged(gaps, skills), agents), commands), hooks), servers, UNREADABLE);
  }

  /** The version directories that a stretch of the walk added are clean. */
  ghost predicate NewClean(w: World, root: Path, before: Walk, after: Walk)
  {
    forall k :: |before.places| <= k < |after.places| ==> PlaceClean(w, root, after.places[k])
  }

  /** A stretch of the walk only appends, and adds no gap exactly when a condition holds. */
  ghost predicate Stretch(before: Walk, after: Walk, clean: bool)
  {
    && before.places <= after.places
    && TotalOf(after.gaps) >= TotalOf(before.gaps)
    && (TotalOf(after.gaps) == TotalOf(before.gaps) <==> clean)
  }

  lemma NewCleanJoins(w: World, root: Path, a: Walk, b: Walk, c: Walk)
    requires a.places <= b.places <= c.places
    ensures NewClean(w, root, a, c) <==> NewClean(w, root, a, b) && NewClean(w, root, b, c)
  {
    hide PlaceClean;
    if NewClean(w, root, a, c) {
      forall k | |a.places| <= k < |b.places| ensures PlaceClean(w, root, b.places[k]) {
        assert b.places[k] == c.places[k];
      }
    }
    if NewClean(w, root, a, b) && NewClean(w, root, b, c) {
      forall k | |a.places| <= k < |c.places| ensures PlaceClean(w, root, c.places[k]) {
        if k < |b.places| { assert b.places[k] == c.places[k]; }
      }
    }
  }

  lemma VersionStretch(w: World, root: Path, p: Place, walk: Walk)
    ensures var after := AfterVersion(w, root, p, walk); Stretch(walk, after, NewClean(w, root, walk, after))
  {
    hide PlaceClean, WithPlaceGaps;
    var after := AfterVersion(w, root, p, walk);
    if !Full(walk) {
      PlaceTotal(w, root, p, walk.gaps);
      assert after.places[|walk.places|] == p;
    }
  }

  lemma {:induction false} VersionsStretch(w: World, root: Path, market: string, folder: string, versions: seq<string>,
                                           walk: Walk)
    ensures var after := AfterVersions(w, root, market, folder, versions, walk);
      Stretch(walk, after, NewClean(w, root, walk, after))
  {
    hide NewClean, AfterVersion;
    if versions == [] {
      NothingNew(w, root, walk);
    } else {
      var n := |versions| - 1;
      var before := AfterVersions(w, root, market, folder, versions[..n], walk);
      VersionsStretch(w, root, market, folder, versions[..n], walk);
      VersionStretch(w, root, Place(market, folder, versions[n]), before);
      NewCleanJoins(w, root, walk, before, AfterVersions(w, root, market, folder, versions, walk));
    }
  }

  lemma NothingNew(w: World, root: Path, walk: Walk)
    ensures NewClean(w, root, walk, walk)
  {
  }

  /** A folder is listed, unless the budget was gone before the walk came to it. */
  predicate FolderReached(w: World, root: Path, market: string, folder: string, walk: Walk)
  {
    Full(walk) || Names(w.host, root + [market, folder]).Some?
  }

  lemma FolderStretch(w: World, root: Path, market: string, folder: string, walk: Walk)
    ensures var after := AfterFolder(w, root, market, folder, walk);
      Stretch(walk, after, FolderReached(w, root, market, folder, walk) && NewClean(w, root, walk, after))
  {
    hide NewClean, AfterVersions, Names, Added;
    NothingNew(w, root, walk);
    if !Full(walk) {
      match Names(w.host, root + [market, folder]) {
        case None => TotalsAdd(walk.gaps, map[], RootGap(w.host, root + [market, folder]));
        case Some(versions) => VersionsStretch(w, root, market, folder, First(MAX_CACHE_VERSIONS, versions), walk);
      }
    }
  }

  /** Every folder the budget reached was listed. */
  ghost predicate FoldersReached(w: World, root: Path, market: string, folders: seq<string>, walk: Walk)
  {
    forall j {:trigger folders[j]} :: 0 <= j < |folders| ==>
      FolderReached(w, root, market, folders[j], AfterFolders(w, root, market, folders[..j], walk))
  }

  lemma FoldersReachedSnoc(w: World, root: Path, market: string, front: seq<string>, last: string, walk: Walk)
    ensures FoldersReached(w, root, market, front + [last], walk) <==>
      FoldersReached(w, root, market, front, walk)
      && FolderReached(w, root, market, last, AfterFolders(w, root, market, front, walk))
  {
    hide FolderReached, AfterFolders;
    var all := front + [last];
    assert forall j :: 0 <= j < |front| ==> all[..j] == front[..j] && all[j] == front[j];
    assert all[..|front|] == front && all[|front|] == last;
    if FoldersReached(w, root, market, all, walk) {
      forall j | 0 <= j < |front|
        ensures FolderReached(w, root, market, front[j], AfterFolders(w, root, market, front[..j], walk))
      {
        assert all[..j] == front[..j] && all[j] == front[j];
      }
    }
  }

  lemma {:induction false} FoldersStretch(w: World, root: Path, market: string, folders: seq<string>, walk: Walk)
    ensures var after := AfterFolders(w, root, market, folders, walk);
      Stretch(walk, after, FoldersReached(w, root, market, folders, walk) && NewClean(w, root, walk, after))
  {
    hide NewClean, AfterFolder, FolderReached, FoldersReached;
    if folders == [] {
      NothingNew(w, root, walk);
      NoFolders(w, root, market, folders, walk);
    } else {
      var n := |folders| - 1;
      var front, last := folders[..n], folders[n];
      var before := AfterFolders(w, root, market, front, walk);
      assert folders == front + [last];
      FoldersStretch(w, root, market, front, walk);
      FolderStretch(w, root, market, last, before);
      FoldersReachedSnoc(w, root, market, front, last, walk);
      NewCleanJoins(w, root, walk, before, AfterFolders(w, root, market, folders, walk));
    }
  }

  lemma NoFolders(w: World, root: Path, market: string, folders: seq<string>, walk: Walk)
    requires folders == []
    ensures FoldersReached(w, root, market, folders, walk)
  {
  }

  ghost predicate MarketReached(w: World, root: Path, market: string, walk: Walk)
  {
    match Names(w.host, root + [market])
    case None => false
    case Some(folders) => FoldersReached(w, root, market, folders, walk)
  }

  lemma MarketStretch(w: World, root: Path, market: string, walk: Walk)
    ensures var after := AfterMarket(w, root, market, walk);
      Stretch(walk, after, MarketReached(w, root, market, walk) && NewClean(w, root, walk, after))
  {
    hide NewClean, AfterFolders, Names, Added, FoldersReached;
    match Names(w.host, root + [market]) {
      case None => TotalsAdd(walk.gaps, map[], RootGap(w.host, root + [market]));
      case Some(folders) => FoldersStretch(w, root, market, folders, walk);
    }
  }

  /** Every visited marketplace was listed, and every folder of it that the budget reached. */
  ghost predicate MarketsReached(w: World, root: Path, markets: seq<string>)
  {
    forall i {:trigger markets[i]} :: 0 <= i < |markets| ==>
      MarketReached(w, root, markets[i], AfterMarkets(w, root, markets[..i]))
  }

  lemma MarketsReachedSnoc(w: World, root: Path, front: seq<string>, last: string)
    ensures MarketsReached(w, root, front + [last]) <==>
      MarketsReached(w, root, front) && MarketReached(w, root, last, AfterMarkets(w, root, front))
  {
    hide MarketReached, AfterMarkets;
    var all := front + [last];
    assert forall j :: 0 <= j < |front| ==> all[..j] == front[..j] && all[j] == front[j];
    assert all[..|front|] == front && all[|front|] == last;
    if MarketsReached(w, root, all) {
      forall j | 0 <= j < |front| ensures MarketReached(w, root, front[j], AfterMarkets(w, root, front[..j])) {
        assert all[..j] == front[..j] && all[j] == front[j];
      }
    }
  }

  lemma {:induction false} WalkStretch(w: World, root: Path, markets: seq<string>)
    ensures var start, after := Walk([], map[]), AfterMarkets(w, root, markets);
      Stretch(start, after, MarketsReached(w, root, markets) && NewClean(w, root, start, after))
  {
    hide NewClean, AfterMarket, MarketReached, MarketsReached;
    var start := Walk([], map[]);
    if markets == [] {
      NothingNew(w, root, start);
      NoMarkets(w, root, markets);
    } else {
      var n := |markets| - 1;
      var front, last := markets[..n], markets[n];
      var before := AfterMarkets(w, root, front);
      assert markets == front + [last];
      WalkStretch(w, root, front);
      MarketStretch(w, root, last, before);
      MarketsReachedSnoc(w, root, front, last);
      NewCleanJoins(w, root, start, before, AfterMarkets(w, root, markets));
    }
  }

  lemma NoMarkets(w: World, root: Path, markets: seq<string>)
    requires markets == []
    ensures MarketsReached(w, root, markets)
  {
  }

  /** None of the gaps that the scan of the plugin cache records has a cause: every listing and every
      child file it came to was read. Reads of the plugin manifests leave no gap and are not in it. */
  ghost predicate CacheClean(w: World, state: Path)
  {
    var root := CacheRoot(state);
    match w.host.probe(root)
    case Refused => false
    case Missing => true
    case Present =>
      match Names(w.host, root)
      case None => false
      case Some(names) =>
        var markets := First(MAX_CACHE_MARKETPLACES, names);
        && MarketsReached(w, root, markets)
        && forall p :: p in AfterMarkets(w, root, markets).places ==> PlaceClean(w, root, p)
  }

  /** A gap total of zero says exactly that. */
  lemma ZeroMeansCacheClean(w: World, state: Path)
    ensures TotalOf(CacheOf(w, state).gaps) >= 0
    ensures TotalOf(CacheOf(w, state).gaps) == 0 <==> CacheClean(w, state)
  {
    hide Names, AfterMarkets, MarketsReached, PlaceClean, Added, Contributing, Candidate;
    var root := CacheRoot(state);
    TotalsAdd(map[], map[], RootGap(w.host, root));
    assert TotalOf(map[]) == 0;
    if w.host.probe(root).Present? && Names(w.host, root).Some? {
      var markets := First(MAX_CACHE_MARKETPLACES, Names(w.host, root).value);
      WalkStretch(w, root, markets);
      AllNewClean(w, root, AfterMarkets(w, root, markets));
    }
  }

  lemma AllNewClean(w: World, root: Path, walk: Walk)
    ensures NewClean(w, root, Walk([], map[]), walk) <==> forall p :: p in walk.places ==> PlaceClean(w, root, p)
  {
    hide PlaceClean;
    if NewClean(w, root, Walk([], map[]), walk) {
      forall p | p in walk.places ensures PlaceClean(w, root, p) {
        var k :| 0 <= k < |walk.places| && walk.places[k] == p;
      }
    }
  }

  // ---------- what the bounds drop ----------

  predicate FolderFits(w: World, root: Path, market: string, folder: string)
  {
    var listed := Names(w.host, root + [market, folder]);
    listed.Some? ==> |listed.value| <= MAX_CACHE_VERSIONS
  }

  lemma FolderLimit(w: World, root: Path, market: string, folder: string)
    requires ValidHost(w.host)
    ensures var few, all := FolderPlaces(w, root, MAX_CACHE_VERSIONS, market, folder),
      FolderPlaces(w, root, MAX_LISTING, market, folder);
      |few| <= |all| && (|few| == |all| <==> FolderFits(w, root, market, folder)) && (|few| == |all| ==> few == all)
  {
    hide Names, ValidHost;
    var dir := root + [market, folder];
    if Names(w.host, dir).Some? { NamesDistinct(w.host, dir); }
  }

  lemma {:induction false} FoldersLimit(w: World, root: Path, market: string, folders: seq<string>)
    requires ValidHost(w.host)
    ensures var few, all := FoldersPlaces(w, root, MAX_CACHE_VERSIONS, market, folders),
      FoldersPlaces(w, root, MAX_LISTING, market, folders);
      |few| <= |all| && (|few| == |all| <==> forall f :: f in folders ==> FolderFits(w, root, market, f))
      && (|few| == |all| ==> few == all)
  {
    hide FolderPlaces, ValidHost, FolderFits;
    if folders != [] {
      var n := |folders| - 1;
      assert folders == folders[..n] + [folders[n]];
      FoldersLimit(w, root, market, folders[..n]);
      FolderLimit(w, root, market, folders[n]);
    }
  }

  ghost predicate MarketFits(w: World, root: Path, market: string)
  {
    var listed := Names(w.host, root + [market]);
    listed.Some? ==> forall f :: f in listed.value ==> FolderFits(w, root, market, f)
  }

  lemma {:induction false} MarketsLimit(w: World, root: Path, markets: seq<string>)
    requires ValidHost(w.host)
    ensures var few, all := AllPlaces(w, root, MAX_CACHE_VERSIONS, markets), AllPlaces(w, root, MAX_LISTING, markets);
      |few| <= |all| && (|few| == |all| <==> forall m :: m in markets ==> MarketFits(w, root, m))
      && (|few| == |all| ==> few == all)
  {
    hide MarketPlaces, ValidHost, MarketFits;
    if markets != [] {
      var n := |markets| - 1;
      assert markets == markets[..n] + [markets[n]];
      MarketsLimit(w, root, markets[..n]);
      MarketLimit(w, root, markets[n]);
    }
  }

  lemma MarketLimit(w: World, root: Path, market: string)
    requires ValidHost(w.host)
    ensures var few, all := MarketPlaces(w, root, MAX_CACHE_VERSIONS, market),
      MarketPlaces(w, root, MAX_LISTING, market);
      |few| <= |all| && (|few| == |all| <==> MarketFits(w, root, market)) && (|few| == |all| ==> few == all)
  {
    hide Names, ValidHost, FoldersPlaces, FolderFits;
    if Names(w.host, root + [market]).Some? {
      FoldersLimit(w, root, market, Names(w.host, root + [market]).value);
    }
  }

  lemma {:induction false} AllPlacesConcat(w: World, root: Path, limit: nat, s: seq<string>, t: seq<string>)
    ensures AllPlaces(w, root, limit, s + t) == AllPlaces(w, root, limit, s) + AllPlaces(w, root, limit, t)
  {
    hide MarketPlaces;
    if t == [] {
      assert s + t == s;
    } else {
      var n := |t| - 1;
      assert (s + t)[..|s| + n] == s + t[..n];
      AllPlacesConcat(w, root, limit, s, t[..n]);
    }
  }

  /** No bound of the scan takes effect: marketplaces after the 64th hold no version directory, no
      folder holds more than eight, and there are no more than 1024 in all. */
  ghost predicate NoBoundBinds(w: World, root: Path, names: seq<string>)
  {
    && AllPlaces(w, root, MAX_LISTING, names[|First(MAX_CACHE_MARKETPLACES, names)|..]) == []
    && (forall m :: m in First(MAX_CACHE_MARKETPLACES, names) ==> MarketFits(w, root, m))
    && |AllPlaces(w, root, MAX_LISTING, names)| <= MAX_CACHE_PLUGINS
  }

  /** Every version directory of a readable cache becomes a candidate exactly when no bound takes
      effect. (A listing never exceeds 512 entries, so that limit cuts nothing.) */
  lemma NothingDroppedIff(w: World, state: Path)
    requires ValidHost(w.host) && w.host.probe(CacheRoot(state)).Present? && Names(w.host, CacheRoot(state)).Some?
    ensures var root := CacheRoot(state);
      var names := Names(w.host, root).value;
      CacheOf(w, state).candidates == Map(Candidate(w, root), AllPlaces(w, root, MAX_LISTING, names)) <==>
        NoBoundBinds(w, root, names)
  {
    hide Names, AfterMarkets, ValidHost, AllPlaces, MarketFits, Candidate, Contributing;
    var root := CacheRoot(state);
    var names := Names(w.host, root).value;
    var markets := First(MAX_CACHE_MARKETPLACES, names);
    var rest := names[|markets|..];
    assert names == markets + rest;
    WalkClosed(w, root, markets);
    MarketsLimit(w, root, markets);
    AllPlacesConcat(w, root, MAX_LISTING, markets, rest);
    var some, every := AllPlaces(w, root, MAX_LISTING, markets), AllPlaces(w, root, MAX_LISTING, rest);
    assert every == [] ==> some + every == some;
    var walked := AfterMarkets(w, root, markets).places;
    assert |Map(Candidate(w, root), walked)| == |walked|;
  }

  // ---------- a version dropped without a gap ----------

  function VersionEntry(i: nat): Entry { Entry(seq(i, _ => 'v'), true, false) }

  /** A cache with one folder of nine versions, and no refusal anywhere. */
  function NineVersions(root: Path): Path -> Listing
  {
    (p: Path) =>
      if p == root then Listed([Entry("m", true, false)])
      else if p == root + ["m"] then Listed([Entry("f", true, false)])
      else if p == root + ["m", "f"] then Listed(seq(9, (i: nat) => VersionEntry(i)))
      else Listed([])
  }

  function CrowdedHost(root: Path, pseudonym: Path -> string): Host
  {
    Host(p => if p == root then Present else Missing, NineVersions(root), p => ReadMissing, p => false, pseudonym,
         t => None, t => None, t => None, t => None, t => None, t => None)
  }

  lemma CrowdedHostIsValid(root: Path, pseudonym: Path -> string)
    requires InjectivePaths(pseudonym)
    ensures ValidHost(CrowdedHost(root, pseudonym))
  {
    var host := CrowdedHost(root, pseudonym);
    forall p ensures ValidListing(host.list(p)) {
      forall i, j | 0 <= i < j < 9 ensures VersionEntry(i).name != VersionEntry(j).name {
        assert |VersionEntry(i).name| == i && |VersionEntry(j).name| == j;
      }
    }
  }

  lemma {:induction false} AllEligible(entries: seq<Entry>)
    requires forall e :: e in entries ==> Eligible(e)
    ensures |EligibleNames(entries)| == |entries|
  {
    if entries != [] { AllEligible(entries[..|entries| - 1]); }
  }

  lemma NamesCount(host: Host, dir: Path)
    requires host.list(dir).Listed? && forall e :: e in host.list(dir).entries ==> Eligible(e)
    ensures Names(host, dir).Some? && |Names(host, dir).value| == |host.list(dir).entries|
    ensures |host.list(dir).entries| == 1 ==> Names(host, dir).value == [host.list(dir).entries[0].name]
  {
    var entries := host.list(dir).entries;
    AllEligible(entries);
    SameLength(EligibleNames(entries), SortStrings(EligibleNames(entries)));
    if |entries| == 1 {
      assert entries[..0] == [];
      assert EligibleNames(entries) == [entries[0].name];
    }
  }

  /** The bounds are silent: this cache loses a version directory and the scan's tally is zero. */
  lemma DroppedWithoutAGap(hex: Hex, state: Path, pseudonym: Path -> string)
    requires InjectivePaths(pseudonym)
    ensures var root := CacheRoot(state);
      var w := World(hex, CrowdedHost(root, pseudonym));
      && ValidHost(w.host) && w.host.probe(root).Present? && Names(w.host, root).Some?
      && TotalOf(CacheOf(w, state).gaps) == 0
      && CacheOf(w, state).candidates !=
         Map(Candidate(w, root), AllPlaces(w, root, MAX_LISTING, Names(w.host, root).value))
  {
    hide ValidHost, CacheOf, AllPlaces, AfterMarkets, Names, SortStrings, EligibleNames, Candidate, TotalOf;
    var root := CacheRoot(state);
    var w := World(hex, CrowdedHost(root, pseudonym));
    CrowdedHostIsValid(root, pseudonym);
    NamesCount(w.host, root);
    NamesCount(w.host, root + ["m"]);
    NamesCount(w.host, root + ["m", "f"]);
    NothingDroppedIff(w, state);
    assert !FolderFits(w, root, "m", "f");
    assert "f" in Names(w.host, root + ["m"]).value;
    assert "m" in First(MAX_CACHE_MARKETPLACES, Names(w.host, root).value);
    assert !NoBoundBinds(w, root, Names(w.host, root).value);
    CrowdedIsClean(w, root, state);
    ZeroMeansCacheClean(w, state);
  }

  lemma CrowdedIsClean(w: World, root: Path, state: Path)
    requires root == CacheRoot(state) && w.host.probe(root).Present?
    requires (forall p :: w.host.list(p).Listed?) && forall p :: p != root ==> w.host.probe(p).Missing?
    requires forall p :: w.host.read(p).ReadMissing?
    ensures CacheClean(w, state)
  {
    hide AfterMarkets, AfterFolders, SortStrings, EligibleNames;
    forall p: Place ensures PlaceClean(w, root, p) {
      var dir := PlaceDir(root, p);
      assert |SkillsDir(dir)| == |AgentsRoot(dir)| == |CommandsRoot(dir)| == |root| + 4;
    }
    forall p ensures Names(w.host, p).Some? { }
  }
}
