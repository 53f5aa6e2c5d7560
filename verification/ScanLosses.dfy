/** What a scan can lose without recording a gap, and the theorem that this is all: everything on the
    host is in the scanned input exactly when the gap total is zero and none of these losses occurs. */
module ScanLosses {
  import opened Ordering
  import opened CoverageGaps
  import opened InventoryTypes
  import opened InventoryGraph
  import opened HostTree
  import opened Visits
  import opened SkillScan
  import opened BundleScan
  import opened ScanCauses
  import opened CacheScan
  import opened CacheBounds
  import opened CacheCoverage
  import opened HostScan
  import opened SnapshotDiff
  import opened InventoryPipeline

  // ---------- what is kept ----------

  ghost predicate NamedIn(cs: seq<Component>, name: string)
  {
    exists c :: c in cs && c.name == name
  }

  /** Everything the settings file lists is in the input; a file that cannot be read is lost. */
  ghost predicate SettingsKept(t: ScanTarget)
  {
    match t.w.host.read(SettingsPath(t))
    case ReadMissing => true
    case ReadRefused => false
    case Content(text, _) =>
      match t.w.host.settings(text)
      case None => false
      case Some(s) =>
        && Seed(t).Keys == s.enabledPlugins.Keys
        && forall name :: name in s.servers ==> NamedIn(ServersOf(t), name)
  }

  /** The entry has no manifest, or one that was read whole and whose skill is in the list. */
  ghost predicate SkillKept(w: World, root: Path, scope: string, e: Entry, skills: seq<SkillDescriptor>)
  {
    var path := ManifestPath(root, e.name);
    Eligible(e) && !NoFile(w, path, e) ==> exists s :: s in skills && DeclaredBy(w, path, scope, s)
  }

  /** Every entry of a skill root is among the skills, or never was to be one. */
  ghost predicate RootKept(w: World, root: Path, scope: string, skills: seq<SkillDescriptor>)
  {
    match w.host.probe(root)
    case Refused => false
    case Missing => true
    case Present =>
      match w.host.list(root)
      case ListRefused => false
      case Listed(entries) => forall e :: e in entries ==> SkillKept(w, root, scope, e, skills)
  }

  /** The file is gone, or was read whole and its component is in the list. */
  ghost predicate FileKept(w: World, root: Path, e: Entry, items: seq<Item>)
  {
    var path := root + [e.name];
    Markdown(e) && !NoFile(w, path, e) ==> exists x :: x in items && ItemFromFile(w, path, e, x)
  }

  /** Every markdown file of a root is among the components, or is absent. */
  ghost predicate MarkdownKept(w: World, root: Path)
  {
    match w.host.probe(root)
    case Refused => false
    case Missing => true
    case Present =>
      match w.host.list(root)
      case ListRefused => false
      case Listed(entries) => forall e :: e in entries ==> FileKept(w, root, e, ItemsOf(w, root).items)
  }

  ghost predicate HooksKept(w: World, dir: Path)
  {
    w.host.read(HooksPath(dir)).ReadMissing? ||
    match Decoded(w, HooksPath(dir), w.host.hookEvents)
    case None => false
    case Some(events) => forall event :: event in events ==> NamedIn(HooksOf(w, dir), event)
  }

  ghost predicate ServerWith(servers: seq<ServerDescriptor>, name: string, tools: seq<string>)
  {
    exists c :: c in servers && c.name == name && multiset(c.tools) == multiset(tools)
  }

  /** Every declared server is there, with all the tools it lists. */
  ghost predicate ServersKept(w: World, dir: Path)
  {
    w.host.read(ServersPath(dir)).ReadMissing? ||
    match Decoded(w, ServersPath(dir), w.host.declarations)
    case None => false
    case Some(declared) =>
      forall name :: name in declared ==>
        ServerWith(BundledServersOf(w, dir), name, declared[name].tools)
  }

  function PackageManifest(dir: Path): Path { dir + [".claude-plugin", "plugin.json"] }

  /** A version directory's name is known and its five kinds of children are all there. A manifest
      that is there and cannot be read may declare another name, so it counts as lost. */
  ghost predicate PlaceKept(w: World, root: Path, p: Place)
  {
    var dir := PlaceDir(root, p);
    && ManifestClean(w, PackageManifest(dir), w.host.manifestName)
    && RootKept(w, SkillsDir(dir), SCOPE_PLUGIN_CACHE, ScanOf(w, SkillsDir(dir), SCOPE_PLUGIN_CACHE).skills)
    && MarkdownKept(w, AgentsRoot(dir)) && MarkdownKept(w, CommandsRoot(dir))
    && HooksKept(w, dir) && ServersKept(w, dir)
  }

  /** Every marketplace and every folder of one can be listed. */
  ghost predicate AllListed(w: World, root: Path, names: seq<string>)
  {
    forall m :: m in names ==> MarketListed(w, root, m)
  }

  ghost predicate MarketListed(w: World, root: Path, market: string)
  {
    match Names(w.host, root + [market])
    case None => false
    case Some(folders) => forall f :: f in folders ==> Names(w.host, root + [market, f]).Some?
  }

  /** Every version directory of the cache is a candidate with all its children. */
  ghost predicate CacheKept(w: World, state: Path)
  {
    var root := CacheRoot(state);
    match w.host.probe(root)
    case Refused => false
    case Missing => true
    case Present =>
      match Names(w.host, root)
      case None => false
      case Some(names) =>
        && AllListed(w, root, names)
        && CacheOf(w, state).candidates == Map(Candidate(w, root), AllPlaces(w, root, MAX_LISTING, names))
        && forall p :: p in AllPlaces(w, root, MAX_LISTING, names) ==> PlaceKept(w, root, p)
  }

  function PointerPath(t: ScanTarget): Path { t.state + ["plugins", "installed_plugins.json"] }

  /** Nothing on the host is lost: the settings, the active pointers, the five skill roots, and the
      plugin cache are in the input with all they hold. */
  ghost predicate NothingLost(t: ScanTarget)
  {
    && SettingsKept(t)
    && ManifestClean(t.w, PointerPath(t), t.w.host.installed)
    && (forall scope :: scope in SCOPES ==> RootKept(t.w, ScopeRoot(t, scope), scope, SkillsOf(t)))
    && RootKept(t.w, PersonalRoot(t), SCOPE_USER, SkillsOf(t))
    && CacheKept(t.w, t.state)
  }

  // ---------- what is lost without a gap ----------

  /** A settings file that is there decodes, and no key of it is cut at 256 names. */
  predicate SettingsFit(t: ScanTarget)
  {
    match t.w.host.read(SettingsPath(t))
    case Content(text, _) =>
      (match t.w.host.settings(text)
       case None => false
       case Some(s) => |s.enabledPlugins.Keys| <= MAX_SCANNED_ENTRIES && |s.servers.Keys| <= MAX_SCANNED_ENTRIES)
    case _ => true
  }

  /** No personal skill declares the name of a scope. */
  predicate NoneReserved(t: ScanTarget)
  {
    forall s :: s in PersonalScan(t).skills ==> !Reserved(s.name)
  }

  /** No component of a markdown root lies past the 256th. */
  ghost predicate MarkdownFits(w: World, root: Path)
  {
    w.host.probe(root).Present? && w.host.list(root).Listed? ==>
      forall e :: e in Unreached(MarkdownVisit(w, root), MAX_BUNDLED, w.host.list(root).entries) ==>
        Markdown(e) ==> NoFile(w, root + [e.name], e)
  }

  predicate HooksFit(w: World, dir: Path)
  {
    match Decoded(w, HooksPath(dir), w.host.hookEvents) case None => true case Some(events) => |events| <= MAX_BUNDLED
  }

  predicate ServersFit(w: World, dir: Path)
  {
    match Decoded(w, ServersPath(dir), w.host.declarations)
    case None => true
    case Some(declared) =>
      |declared.Keys| <= MAX_BUNDLED && forall name :: name in declared ==> |declared[name].tools| <= MAX_TOOLS
  }

  /** A version directory's package manifest can be read, and its children fit their limits. */
  ghost predicate PlaceFits(w: World, root: Path, p: Place)
  {
    var dir := PlaceDir(root, p);
    && ManifestClean(w, PackageManifest(dir), w.host.manifestName)
    && MarkdownFits(w, AgentsRoot(dir)) && MarkdownFits(w, CommandsRoot(dir))
    && HooksFit(w, dir) && ServersFit(w, dir)
  }

  /** No bound of the cache scan takes effect, the listings it never comes to are readable, and every
      version directory fits. */
  ghost predicate CacheFits(w: World, state: Path)
  {
    var root := CacheRoot(state);
    w.host.probe(root).Present? && Names(w.host, root).Some? ==>
      var names := Names(w.host, root).value;
      && AllListed(w, root, names)
      && NoBoundBinds(w, root, names)
      && forall p :: p in AllPlaces(w, root, MAX_LISTING, names) ==> PlaceFits(w, root, p)
  }

  /** None of the losses that leave no gap occurs. */
  ghost predicate NoSilentLoss(t: ScanTarget)
  {
    && SettingsFit(t)
    && ManifestClean(t.w, PointerPath(t), t.w.host.installed)
    && NoneReserved(t)
    && CacheFits(t.w, t.state)
  }

  // ---------- settings ----------

  /** A list of keys cut at a limit holds all of them exactly when there are no more than that. */
  lemma FirstHoldsAllIff(keys: set<string>, limit: nat)
    ensures (forall k :: k in keys ==> k in First(limit, KeyList(keys))) <==> |keys| <= limit
  {
    hide KeyList;
    var all := KeyList(keys);
    KeyListIs(keys);
    SetSize(all, keys);
    if |keys| > limit {
      var k := all[limit];
      assert k in keys;
      forall i | 0 <= i < limit ensures First(limit, all)[i] != k {
        assert all[i] != all[limit];
      }
    }
  }

  lemma SettingsKeptIff(t: ScanTarget)
    ensures SettingsKept(t) <==> !t.w.host.read(SettingsPath(t)).ReadRefused? && SettingsFit(t)
  {
    hide KeyList, ConfiguredPlugin, ConfiguredServer;
    if SettingsOf(t).Some? {
      var s := SettingsOf(t).value;
      ConsideredMembers(s.enabledPlugins.Keys);
      FirstHoldsAllIff(s.enabledPlugins.Keys, MAX_SCANNED_ENTRIES);
      FirstHoldsAllIff(s.servers.Keys, MAX_SCANNED_ENTRIES);
      assert Seed(t).Keys == s.enabledPlugins.Keys <==>
        forall k :: k in s.enabledPlugins.Keys ==> k in Considered(s.enabledPlugins.Keys);
      ServerNames(t, s);
    }
  }

  lemma ServerNames(t: ScanTarget, s: Settings)
    requires SettingsOf(t) == Some(s)
    ensures forall name :: NamedIn(ServersOf(t), name) <==> name in Considered(s.servers.Keys)
  {
    hide Considered;
    NamesOfMapped(ServersOf(t), Considered(s.servers.Keys));
  }

  /** Components made one by one from a list of names carry exactly those names. */
  lemma NamesOfMapped(cs: seq<Component>, names: seq<string>)
    requires |cs| == |names| && forall i :: 0 <= i < |names| ==> cs[i].name == names[i]
    ensures forall name :: NamedIn(cs, name) <==> name in names
  {
    forall name ensures NamedIn(cs, name) <==> name in names {
      if NamedIn(cs, name) {
        var c :| c in cs && c.name == name;
        var i :| 0 <= i < |cs| && cs[i] == c;
        assert names[i] == name;
      }
      if name in names {
        var i :| 0 <= i < |names| && names[i] == name;
        assert cs[i] in cs;
      }
    }
  }

  // ---------- skill roots ----------

  /** A root keeps everything in a list that holds exactly some of its skills when nothing was missed
      and those are all of them. */
  lemma RootKeptIff(w: World, root: Path, scope: string, skills: seq<SkillDescriptor>)
    ensures RootKept(w, root, scope, skills) <==>
      Clean(w, root, scope) && forall s :: s in ScanOf(w, root, scope).skills ==> s in skills
  {
    hide SkillVisit, FoundIn, GapsIn, SkillKept, TakenIn;
    if w.host.probe(root).Present? && w.host.list(root).Listed? {
      var entries, visit := w.host.list(root).entries, SkillVisit(w, root, scope);
      forall e ensures !visit(e).Missed? <==> TakenIn(w, root, e) { TakenInMeans(w, root, scope, e); }
      forall e ensures SkillKept(w, root, scope, e, skills) <==> KeptBy(visit(e), skills) {
        SkillKeptMeans(w, root, scope, e, skills);
      }
      SameMembers(ScanOf(w, root, scope).skills, FoundIn(visit, entries));
      forall s ensures s in ScanOf(w, root, scope).skills <==> exists e :: e in entries && visit(e) == Found(s) {
        FoundMember(visit, entries, s);
      }
      if Clean(w, root, scope) && forall s :: s in ScanOf(w, root, scope).skills ==> s in skills {
        forall e | e in entries && visit(e).Found? ensures visit(e).item in skills {
          assert visit(e) == Found(visit(e).item);
        }
      }
    }
  }

  /** What a visit comes to is not lost. */
  predicate KeptBy<T(==)>(visit: Visit<T>, kept: seq<T>)
  {
    !visit.Missed? && (visit.Found? ==> visit.item in kept)
  }

  lemma SkillKeptMeans(w: World, root: Path, scope: string, e: Entry, skills: seq<SkillDescriptor>)
    ensures SkillKept(w, root, scope, e, skills) <==> KeptBy(SkillVisit(w, root, scope)(e), skills)
  {
    var path, visit := ManifestPath(root, e.name), SkillVisit(w, root, scope)(e);
    forall s: SkillDescriptor ensures DeclaredBy(w, path, scope, s) && Eligible(e) <==> visit == Found(s) { }
  }

  lemma FileKeptMeans(w: World, root: Path, e: Entry, items: seq<Item>)
    ensures FileKept(w, root, e, items) <==> KeptBy(MarkdownVisit(w, root)(e), items)
  {
    hide ItemFromFile, MarkdownVisit;
    forall x ensures MarkdownVisit(w, root)(e) == Found(x) <==> Markdown(e) && ItemFromFile(w, root + [e.name], e, x) {
      ItemMeans(w, root, e, x);
    }
    FileVisits(w, root, e);
  }

  lemma FileVisits(w: World, root: Path, e: Entry)
    ensures var visit := MarkdownVisit(w, root)(e);
      && (visit.Ineligible? <==> !Markdown(e)) && (visit.Absent? <==> Markdown(e) && NoFile(w, root + [e.name], e))
  {
  }

  lemma ScopeRootKeptIff(t: ScanTarget, scope: string)
    requires scope in SCOPES
    ensures RootKept(t.w, ScopeRoot(t, scope), scope, SkillsOf(t)) <==> Clean(t.w, ScopeRoot(t, scope), scope)
  {
    hide ScanOf, Clean, SkillsOf, RootKept;
    RootKeptIff(t.w, ScopeRoot(t, scope), scope, SkillsOf(t));
    forall s | s in ScopeScan(t, scope).skills ensures s in SkillsOf(t) {
      ScopeSkillsMember(t, SCOPES, scope, s);
      SkillsAreListed(t, s);
    }
  }

  lemma PersonalRootKeptIff(t: ScanTarget)
    requires ValidHost(t.w.host)
    ensures RootKept(t.w, PersonalRoot(t), SCOPE_USER, SkillsOf(t)) <==>
      Clean(t.w, PersonalRoot(t), SCOPE_USER) && NoneReserved(t)
  {
    hide ScanOf, Clean, SkillsOf, RootKept, ValidHost, Reserved;
    RootKeptIff(t.w, PersonalRoot(t), SCOPE_USER, SkillsOf(t));
    forall s | s in PersonalScan(t).skills ensures s in SkillsOf(t) <==> !Reserved(s.name) {
      PersonalSkillKept(t, s);
    }
  }

  // ---------- version directories ----------

  lemma MarkdownKeptIff(w: World, root: Path)
    requires ValidHost(w.host)
    ensures MarkdownKept(w, root) <==> MarkdownClean(w, root) && MarkdownFits(w, root)
  {
    hide MarkdownVisit, FoundIn, GapsIn, Reached, InjectivePaths, FileTakenIn, FileKept, NoFile, Markdown;
    if w.host.probe(root).Present? && w.host.list(root).Listed? {
      var entries, visit := w.host.list(root).entries, MarkdownVisit(w, root);
      var reached := Reached(visit, MAX_BUNDLED, entries);
      assert ValidListing(w.host.list(root));
      ItemPathsSeparate(w, root);
      LimitedKeepsAllIff(visit, ItemPath(), MAX_BUNDLED, entries);
      NoGapsMeansNoneMissed(visit, reached);
      forall e ensures !visit(e).Missed? <==> FileTakenIn(w, root, e) { FileTakenInMeans(w, root, e); }
      forall e ensures FileKept(w, root, e, ItemsOf(w, root).items) <==> KeptBy(visit(e), ItemsOf(w, root).items) {
        FileKeptMeans(w, root, e, ItemsOf(w, root).items);
      }
      forall e ensures (visit(e).Absent? || visit(e).Ineligible?) <==> (Markdown(e) ==> NoFile(w, root + [e.name], e)) {
        FileVisits(w, root, e);
      }
      SameMembers(ItemsOf(w, root).items, FoundIn(visit, reached));
    }
  }

  lemma HooksKeptIff(w: World, dir: Path)
    ensures HooksKept(w, dir) <==> ManifestClean(w, HooksPath(dir), w.host.hookEvents) && HooksFit(w, dir)
  {
    hide KeyList, MakeHook;
    var decoded := Decoded(w, HooksPath(dir), w.host.hookEvents);
    if decoded.Some? {
      FirstHoldsAllIff(decoded.value, MAX_BUNDLED);
      HookNames(w, dir, decoded.value);
    }
  }

  lemma HookNames(w: World, dir: Path, events: set<string>)
    requires Decoded(w, HooksPath(dir), w.host.hookEvents) == Some(events)
    ensures forall event :: NamedIn(HooksOf(w, dir), event) <==> event in First(MAX_BUNDLED, KeyList(events))
  {
    hide KeyList, Decoded, First;
    NamesOfMapped(HooksOf(w, dir), First(MAX_BUNDLED, KeyList(events)));
  }

  lemma CutToolsIff(tools: seq<string>)
    ensures multiset(First(MAX_TOOLS, SortStrings(tools))) == multiset(tools) <==> |tools| <= MAX_TOOLS
  {
    hide SortedBy;
    var sorted := SortStrings(tools);
    SameLength(sorted, tools);
    if multiset(First(MAX_TOOLS, sorted)) == multiset(tools) { SameLength(First(MAX_TOOLS, sorted), tools); }
  }

  lemma ServersKeptIff(w: World, dir: Path)
    ensures ServersKept(w, dir) <==> ManifestClean(w, ServersPath(dir), w.host.declarations) && ServersFit(w, dir)
  {
    hide KeyList, MakeServer, BundledServersOf, First;
    var decoded := Decoded(w, ServersPath(dir), w.host.declarations);
    if decoded.Some? {
      var declared := decoded.value;
      FirstHoldsAllIff(declared.Keys, MAX_BUNDLED);
      forall name | name in declared
        ensures ServerWith(BundledServersOf(w, dir), name, declared[name].tools)
            <==> name in First(MAX_BUNDLED, KeyList(declared.Keys)) && |declared[name].tools| <= MAX_TOOLS
      {
        ServerKept(w, dir, declared, name);
      }
    }
  }

  lemma ServerKept(w: World, dir: Path, declared: map<string, Declaration>, name: string)
    requires Decoded(w, ServersPath(dir), w.host.declarations) == Some(declared) && name in declared
    ensures ServerWith(BundledServersOf(w, dir), name, declared[name].tools)
        <==> name in First(MAX_BUNDLED, KeyList(declared.Keys)) && |declared[name].tools| <= MAX_TOOLS
  {
    hide KeyList, Decoded, First, MakeServer, ServerWith;
    var names, servers := First(MAX_BUNDLED, KeyList(declared.Keys)), BundledServersOf(w, dir);
    CutToolsIff(declared[name].tools);
    forall i | 0 <= i < |names|
      ensures servers[i].name == names[i]
      ensures names[i] == name ==> servers[i].tools == First(MAX_TOOLS, SortStrings(declared[name].tools))
    {
      MadeServer(w, dir, names[i], DeclaredAs(declared, names[i]));
    }
    ServerListed(servers, names, name, declared[name].tools);
  }

  lemma MadeServer(w: World, dir: Path, name: string, d: Declaration)
    ensures MakeServer(w, dir, name, d).name == name
    ensures MakeServer(w, dir, name, d).tools == First(MAX_TOOLS, SortStrings(d.tools))
  {
    hide First;
  }

  lemma ServerListed(servers: seq<ServerDescriptor>, names: seq<string>, name: string, tools: seq<string>)
    requires |servers| == |names|
    requires forall i :: 0 <= i < |names| ==>
      servers[i].name == names[i] && (names[i] == name ==> servers[i].tools == First(MAX_TOOLS, SortStrings(tools)))
    ensures ServerWith(servers, name, tools) <==>
      name in names && multiset(First(MAX_TOOLS, SortStrings(tools))) == multiset(tools)
  {
    hide First, SortStrings;
    if ServerWith(servers, name, tools) {
      var c :| c in servers && c.name == name && multiset(c.tools) == multiset(tools);
      var i :| 0 <= i < |servers| && servers[i] == c;
      assert names[i] == name;
    }
    if name in names {
      var i :| 0 <= i < |names| && names[i] == name;
      assert servers[i] in servers;
    }
  }

  lemma PlaceKeptIff(w: World, root: Path, p: Place)
    requires ValidHost(w.host)
    ensures PlaceKept(w, root, p) <==> PlaceClean(w, root, p) && PlaceFits(w, root, p)
  {
    hide ManifestClean, RootKept, MarkdownKept, HooksKept, ServersKept, Clean, MarkdownClean, MarkdownFits;
    hide HooksFit, ServersFit, ScanOf, ValidHost;
    var dir := PlaceDir(root, p);
    RootKeptIff(w, SkillsDir(dir), SCOPE_PLUGIN_CACHE, ScanOf(w, SkillsDir(dir), SCOPE_PLUGIN_CACHE).skills);
    MarkdownKeptIff(w, AgentsRoot(dir));
    MarkdownKeptIff(w, CommandsRoot(dir));
    HooksKeptIff(w, dir);
    ServersKeptIff(w, dir);
  }

  // ---------- the cache ----------

  lemma ListedIsReached(w: World, root: Path, names: seq<string>, markets: seq<string>)
    requires AllListed(w, root, names) && forall m :: m in markets ==> m in names
    ensures MarketsReached(w, root, markets)
  {
    hide Names, AfterMarkets, AfterFolders;
    forall i | 0 <= i < |markets| ensures MarketReached(w, root, markets[i], AfterMarkets(w, root, markets[..i])) {
      assert markets[i] in markets;
      assert MarketListed(w, root, markets[i]);
    }
  }

  /** When no bound takes effect the walk visits every version directory. */
  lemma UnboundWalk(w: World, root: Path, names: seq<string>)
    requires ValidHost(w.host) && NoBoundBinds(w, root, names)
    ensures AfterMarkets(w, root, First(MAX_CACHE_MARKETPLACES, names)).places == AllPlaces(w, root, MAX_LISTING, names)
  {
    hide AfterMarkets, ValidHost, AllPlaces, MarketFits;
    var markets := First(MAX_CACHE_MARKETPLACES, names);
    var rest := names[|markets|..];
    assert names == markets + rest;
    WalkClosed(w, root, markets);
    MarketsLimit(w, root, markets);
    AllPlacesConcat(w, root, MAX_LISTING, markets, rest);
    var some := AllPlaces(w, root, MAX_LISTING, markets);
    assert some + [] == some;
  }

  lemma CacheKeptIff(w: World, state: Path)
    requires ValidHost(w.host)
    ensures CacheKept(w, state) <==> CacheClean(w, state) && CacheFits(w, state)
  {
    hide CacheOf, Names, AfterMarkets, ValidHost, AllPlaces, NoBoundBinds, AllListed, MarketsReached;
    hide PlaceKept, PlaceClean, PlaceFits, Candidate;
    var root := CacheRoot(state);
    if w.host.probe(root).Present? && Names(w.host, root).Some? {
      var names := Names(w.host, root).value;
      var markets := First(MAX_CACHE_MARKETPLACES, names);
      NothingDroppedIff(w, state);
      forall p
        ensures PlaceKept(w, root, p) <==> PlaceClean(w, root, p) && PlaceFits(w, root, p)
      {
        PlaceKeptIff(w, root, p);
      }
      if AllListed(w, root, names) {
        assert forall m :: m in markets ==> m in names;
        ListedIsReached(w, root, names, markets);
      }
      if NoBoundBinds(w, root, names) { UnboundWalk(w, root, names); }
    }
  }

  // ---------- the whole scan ----------

  /** Nothing on the host is lost exactly when no gap is recorded and none of the silent losses
      occurs: the list of silent losses is complete, and each is a loss. */
  lemma NothingLostIff(t: ScanTarget)
    requires ValidHost(t.w.host)
    ensures NothingLost(t) <==> TotalOf(GapsAt(t)) == 0 && NoSilentLoss(t)
  {
    hide SettingsKept, SettingsFit, RootKept, CacheKept, CacheClean, CacheFits, Clean, NoneReserved;
    hide ManifestClean, SkillsOf, GapsAt, TotalOf, ValidHost;
    SettingsKeptIff(t);
    PersonalRootKeptIff(t);
    CacheKeptIff(t.w, t.state);
    ScanTotal(t);
    forall scope | scope in SCOPES
      ensures RootKept(t.w, ScopeRoot(t, scope), scope, SkillsOf(t)) <==> Clean(t.w, ScopeRoot(t, scope), scope)
    {
      ScopeRootKeptIff(t, scope);
    }
  }

  /** Under "complete" nothing is lost exactly when none of the silent losses occurs. */
  lemma CompleteLosesNothingIff(t: ScanTarget, input: Input, now: int, previous: Snapshot, s: Snapshot, d: Diff)
    requires ValidHost(t.w.host) && IsScan(t, input) && IsSnapshot(t.w.hex, input, now, s) && IsDiff(previous, s, d)
    ensures d.completeness == Complete <==> HasComponent(s.nodes) && TotalOf(GapsAt(t)) == 0
    ensures d.completeness == Complete ==> (NothingLost(t) <==> NoSilentLoss(t))
  {
    hide ValidHost, IsScan, IsSnapshot, IsDiff, NothingLost, NoSilentLoss, GapsAt, TotalOf, HasComponent, NoGapCause;
    NothingLostIff(t);
    CompleteIff(t, input, now, previous, s, d);
    ScanTotal(t);
  }
}
