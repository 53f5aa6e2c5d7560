/** One host for each loss that leaves no gap: in every one of them the scan's tally is zero and
    something on the host is not in the scanned input. A last host makes a graph repeat a node id. */
module LossWitnesses {
  import opened Ordering
  import opened CoverageGaps
  import opened InventoryTypes
  import opened InventoryGraph
  import opened HostTree
  import opened Visits
  import opened SkillScan
  import opened BundleScan
  import opened CacheScan
  import opened CacheBounds
  import opened CacheCoverage
  import opened PluginMerge
  import opened HostScan
  import opened InventoryPipeline
  import opened ScanLosses
  import opened GraphAdmission

  // ---------- hosts without a gap ----------

  /** No file is cut short, and only reads that leave no gap are refused. */
  ghost predicate Quiet(files: Path -> Read)
  {
    && (forall p :: files(p).Content? ==> !files(p).truncated)
    && (forall p :: files(p).ReadRefused? ==> p != [] && !Ordinary(p[|p| - 1]))
  }

  predicate Ordinary(name: string) { name != "installed_plugins.json" && name != "plugin.json" }

  ghost predicate Plain(entries: seq<Entry>)
  {
    forall e :: e in entries ==> !e.isSymlink
  }

  /** Every directory can be listed and holds no link, and whatever is there decodes. */
  ghost predicate Calm(host: Host)
  {
    && (forall p :: !host.probe(p).Refused? && host.list(p).Listed? && Plain(host.list(p).entries))
    && Quiet(host.read)
    && (forall text :: host.frontmatterName(text).Some?)
    && (forall text :: host.hookEvents(text).Some?)
    && (forall text :: host.declarations(text).Some?)
  }

  lemma OrdinaryNames()
    ensures Ordinary("SKILL.md") && Ordinary("hooks.json") && Ordinary(".mcp.json") && Ordinary("settings.json")
  {
    assert "SKILL.md"[0] == 'S' && "hooks.json"[0] == 'h' && ".mcp.json"[0] == '.' && "settings.json"[0] == 's';
    assert "plugin.json"[0] == 'p' && "installed_plugins.json"[0] == 'i';
  }

  lemma SpecialNames()
    ensures !Ordinary("installed_plugins.json") && !Ordinary("plugin.json")
  {
  }

  lemma OrdinaryMarkdown(e: Entry)
    requires Markdown(e)
    ensures Ordinary(e.name)
  {
    assert EXTENSION[2] == 'd';
    assert e.name[|e.name| - 3..][2] == e.name[|e.name| - 1] == 'd';
    assert "plugin.json"[10] == 'n' && "installed_plugins.json"[21] == 'n';
  }

  lemma OrdinaryRead(host: Host, dir: Path, name: string)
    requires Calm(host) && Ordinary(name)
    ensures !host.read(dir + [name]).ReadRefused?
    ensures host.read(dir + [name]).Content? ==> !host.read(dir + [name]).truncated
  {
    var p := dir + [name];
    assert p[|p| - 1] == name;
  }

  lemma CalmRoot(w: World, root: Path, scope: string)
    requires Calm(w.host)
    ensures Clean(w, root, scope)
  {
    hide Calm, GapsIn, FoundIn;
    assert Readings(w.host) by { CalmReadings(w.host); }
    forall e: Entry | !e.isSymlink ensures !SkillVisit(w, root, scope)(e).Missed? {
      OrdinaryNames();
      assert ManifestPath(root, e.name) == (root + [e.name]) + ["SKILL.md"];
      OrdinaryRead(w.host, root + [e.name], "SKILL.md");
    }
  }

  ghost predicate Readings(host: Host)
  {
    && (forall p :: !host.probe(p).Refused? && host.list(p).Listed? && Plain(host.list(p).entries))
    && (forall text :: host.frontmatterName(text).Some?)
  }

  lemma CalmReadings(host: Host)
    requires Calm(host)
    ensures Readings(host)
  {
  }

  lemma CalmMarkdown(w: World, root: Path)
    requires Calm(w.host)
    ensures MarkdownClean(w, root)
  {
    hide Calm, Reached;
    CalmReadings(w.host);
    forall e: Entry | !e.isSymlink ensures !MarkdownVisit(w, root)(e).Missed? {
      if Markdown(e) {
        OrdinaryMarkdown(e);
        OrdinaryRead(w.host, root, e.name);
      }
    }
    ReachedIsPrefix(MarkdownVisit(w, root), MAX_BUNDLED, w.host.list(root).entries);
  }

  lemma CalmPlace(w: World, root: Path, p: Place)
    requires Calm(w.host)
    ensures PlaceClean(w, root, p)
  {
    hide Clean, MarkdownClean, Quiet;
    var dir := PlaceDir(root, p);
    CalmRoot(w, SkillsDir(dir), SCOPE_PLUGIN_CACHE);
    CalmMarkdown(w, AgentsRoot(dir));
    CalmMarkdown(w, CommandsRoot(dir));
    OrdinaryNames();
    assert HooksPath(dir) == (dir + ["hooks"]) + ["hooks.json"];
    OrdinaryRead(w.host, dir + ["hooks"], "hooks.json");
    OrdinaryRead(w.host, dir, ".mcp.json");
  }

  lemma CalmCache(w: World, state: Path)
    requires Calm(w.host)
    ensures CacheClean(w, state)
  {
    hide Calm, PlaceClean, AfterMarkets, AfterFolders, SortStrings, EligibleNames;
    CalmReadings(w.host);
    forall p ensures PlaceClean(w, CacheRoot(state), p) { CalmPlace(w, CacheRoot(state), p); }
    forall p ensures Names(w.host, p).Some? { }
  }

  lemma CalmSettings(t: ScanTarget)
    requires Calm(t.w.host)
    ensures !t.w.host.read(SettingsPath(t)).ReadRefused?
  {
    hide Calm;
    OrdinaryNames();
    OrdinaryRead(t.w.host, t.state, "settings.json");
  }

  /** A valid host without a gap on which something is lost nonetheless. */
  ghost predicate LosesSilently(t: ScanTarget)
  {
    ValidHost(t.w.host) && TotalOf(GapsAt(t)) == 0 && !NothingLost(t)
  }

  lemma SilentLossIsSilent(t: ScanTarget)
    requires ValidHost(t.w.host) && Calm(t.w.host) && !NoSilentLoss(t)
    ensures LosesSilently(t)
  {
    hide ValidHost, Calm, Clean, CacheClean, TotalOf, GapsAt, NoSilentLoss, NothingLost;
    NothingLostIff(t);
    ScanTotal(t);
    forall scope ensures Clean(t.w, ScopeRoot(t, scope), scope) { CalmRoot(t.w, ScopeRoot(t, scope), scope); }
    CalmRoot(t.w, PersonalRoot(t), SCOPE_USER);
    CalmCache(t.w, t.state);
    CalmSettings(t);
  }

  // ---------- a small host ----------

  const VERSION := Place("m", "f", "1")

  function Dir(name: string): Entry { Entry(name, true, false) }

  function Version(state: Path): Path { PlaceDir(CacheRoot(state), VERSION) }

  function SmallTree(state: Path, versions: seq<Entry>, agents: seq<Entry>, personal: seq<Entry>): Path -> Listing
  {
    (p: Path) =>
      if p == CacheRoot(state) then Listed([Dir("m")])
      else if p == CacheRoot(state) + ["m"] then Listed([Dir("f")])
      else if p == CacheRoot(state) + ["m", "f"] then Listed(versions)
      else if p == AgentsRoot(Version(state)) then Listed(agents)
      else if p == state + ["skills"] then Listed(personal)
      else Listed([])
  }

  function AllPresent(): Path -> Probe { (p: Path) => Present }

  /** A decoder with one outcome. */
  function Always<T>(outcome: T): string -> T { (text: string) => outcome }

  /** One marketplace "m" with one folder "f", the given versions, agents of version "1", personal
      skills, and files, with decoders that accept every text but for the settings. */
  datatype Small = Small(
    versions: seq<Entry>,
    agents: seq<Entry>,
    personal: seq<Entry>,
    files: Path -> Read,
    settings: Option<Settings>,
    name: string,
    events: set<string>,
    servers: map<string, Declaration>)

  function SmallHost(state: Path, pseudonym: Path -> string, x: Small): Host
  {
    Host(AllPresent(), SmallTree(state, x.versions, x.agents, x.personal), x.files, p => false, pseudonym,
         Always(Some(x.name)), Always(None), Always(x.settings), Always(None), Always(Some(x.events)),
         Always(Some(x.servers)))
  }

  function Target(hex: Hex, state: Path, pseudonym: Path -> string, installation: string, x: Small): ScanTarget
  {
    ScanTarget(World(hex, SmallHost(state, pseudonym, x)), state, installation)
  }

  ghost predicate Listable(entries: seq<Entry>)
  {
    Plain(entries) && ValidListing(Listed(entries))
  }

  ghost predicate Fine(x: Small)
  {
    Listable(x.versions) && Listable(x.agents) && Listable(x.personal) && Quiet(x.files)
  }

  lemma SmallFields(state: Path, pseudonym: Path -> string, x: Small)
    ensures var host := SmallHost(state, pseudonym, x);
      && host.probe == AllPresent() && host.read == x.files
      && host.list == SmallTree(state, x.versions, x.agents, x.personal)
      && host.frontmatterName == Always(Some(x.name)) && host.settings == Always(x.settings)
      && host.hookEvents == Always(Some(x.events)) && host.declarations == Always(Some(x.servers))
  {
  }

  lemma SmallIsCalm(state: Path, pseudonym: Path -> string, x: Small)
    requires InjectivePaths(pseudonym) && Fine(x)
    ensures ValidHost(SmallHost(state, pseudonym, x)) && Calm(SmallHost(state, pseudonym, x))
  {
    hide InjectivePaths, CacheRoot, Version, Quiet;
    FewEntries("m");
    FewEntries("f");
    var list := SmallTree(state, x.versions, x.agents, x.personal);
    forall p ensures list(p).Listed? && Listable(list(p).entries) { }
  }

  lemma FewEntries(name: string)
    ensures Listable([]) && Listable([Dir(name)])
  {
  }

  /** What shows that a loss occurs on a small host shows that it leaves no gap. */
  lemma SmallLoss(hex: Hex, state: Path, pseudonym: Path -> string, installation: string, x: Small)
    requires InjectivePaths(pseudonym) && Fine(x) && !NoSilentLoss(Target(hex, state, pseudonym, installation, x))
    ensures LosesSilently(Target(hex, state, pseudonym, installation, x))
    ensures ValidHost(SmallHost(state, pseudonym, x))
  {
    hide InjectivePaths, Fine, SmallHost, NoSilentLoss, LosesSilently, ValidHost, Calm;
    SmallIsCalm(state, pseudonym, x);
    SilentLossIsSilent(Target(hex, state, pseudonym, installation, x));
  }

  lemma SmallListings(state: Path, versions: seq<Entry>, agents: seq<Entry>, personal: seq<Entry>)
    ensures var list, root := SmallTree(state, versions, agents, personal), CacheRoot(state);
      && list(root) == Listed([Dir("m")]) && list(root + ["m"]) == Listed([Dir("f")])
      && list(root + ["m", "f"]) == Listed(versions)
      && list(AgentsRoot(Version(state))) == Listed(agents) && list(state + ["skills"]) == Listed(personal)
  {
    var root := CacheRoot(state);
    assert |root| == |state| + 2 && |root + ["m"]| == |state| + 3 && |root + ["m", "f"]| == |state| + 4;
    assert |AgentsRoot(Version(state))| == |state| + 6 && |state + ["skills"]| == |state| + 1;
  }

  /** With the one version "1" the small cache holds exactly that version directory. */
  lemma OnePlace(w: World, state: Path, agents: seq<Entry>, personal: seq<Entry>)
    requires w.host.list == SmallTree(state, [Dir("1")], agents, personal)
    ensures var root := CacheRoot(state);
      Names(w.host, root) == Some(["m"]) && VERSION in AllPlaces(w, root, MAX_LISTING, ["m"])
  {
    hide CacheRoot, Version, Names, SmallTree;
    var root := CacheRoot(state);
    SmallListings(state, [Dir("1")], agents, personal);
    NamesCount(w.host, root);
    NamesCount(w.host, root + ["m"]);
    NamesCount(w.host, root + ["m", "f"]);
    var places := FolderPlaces(w, root, MAX_LISTING, "m", "f");
    assert places[0] == VERSION;
    assert ["f"][..0] == [] && ["m"][..0] == [];
    assert VERSION in FoldersPlaces(w, root, MAX_LISTING, "m", ["f"]);
    assert VERSION in MarketPlaces(w, root, MAX_LISTING, "m");
  }

  /** A version directory that does not fit is a loss. */
  lemma UnfitVersion(hex: Hex, state: Path, pseudonym: Path -> string, installation: string, x: Small)
    requires InjectivePaths(pseudonym) && Fine(x) && x.versions == [Dir("1")]
    requires !PlaceFits(World(hex, SmallHost(state, pseudonym, x)), CacheRoot(state), VERSION)
    ensures LosesSilently(Target(hex, state, pseudonym, installation, x))
  {
    hide InjectivePaths, Fine, PlaceFits, LosesSilently, AllPlaces, NoBoundBinds, AllListed, CacheRoot;
    hide Version, Names, SmallTree;
    hide SettingsFit, NoneReserved, ManifestClean;
    var t := Target(hex, state, pseudonym, installation, x);
    OnePlace(t.w, state, x.agents, x.personal);
    assert !CacheFits(t.w, state);
    SmallLoss(hex, state, pseudonym, installation, x);
  }

  // ---------- files ----------

  function NoFiles(): Path -> Read { (p: Path) => ReadMissing }

  function FilesAt(there: set<Path>): Path -> Read
  {
    (p: Path) => if p in there then Content("", false) else ReadMissing
  }

  function RefusedAt(refused: Path, there: set<Path>): Path -> Read
  {
    (p: Path) => if p == refused then ReadRefused else if p in there then Content("", false) else ReadMissing
  }

  lemma RefusedIsQuiet(dir: Path, name: string, there: set<Path>)
    requires !Ordinary(name)
    ensures Quiet(RefusedAt(dir + [name], there))
  {
    var p, files := dir + [name], RefusedAt(dir + [name], there);
    assert p[|p| - 1] == name;
    forall q ensures files(q).Content? ==> !files(q).truncated { }
    forall q | files(q).ReadRefused? ensures q == p { }
  }

  lemma FilesAreQuiet(there: set<Path>)
    ensures Quiet(FilesAt(there)) && Quiet(NoFiles())
  {
  }

  const QUIET_HOST := Small([], [], [], NoFiles(), None, "name", {}, map[])

  // ---------- many names ----------

  function Name(i: nat): string { seq(i, _ => 'v') }

  function ManyNames(n: nat): set<string>
  {
    if n == 0 then {} else ManyNames(n - 1) + {Name(n)}
  }

  lemma {:induction false} ManyNamesCount(n: nat)
    ensures |ManyNames(n)| == n && forall s :: s in ManyNames(n) ==> |s| <= n
  {
    if n > 0 {
      ManyNamesCount(n - 1);
      assert |Name(n)| == n;
    }
  }

  /** Markdown files whose names grow by a character each. */
  function MarkdownFile(i: nat): Entry { Entry(Name(i) + EXTENSION, false, false) }

  function ManyFiles(n: nat): seq<Entry> { seq(n, (i: nat) => MarkdownFile(i)) }

  lemma ManyFilesListed(n: nat)
    requires n <= MAX_LISTING
    ensures |ManyFiles(n)| == n && Listable(ManyFiles(n)) && forall e :: e in ManyFiles(n) ==> Markdown(e)
  {
    forall i, j | 0 <= i < j < n ensures MarkdownFile(i).name != MarkdownFile(j).name {
      assert |MarkdownFile(i).name| == i + 3 && |MarkdownFile(j).name| == j + 3;
    }
    forall i: nat ensures Markdown(MarkdownFile(i)) { }
  }

  // ---------- settings.json ----------

  function SettingsHost(state: Path, settings: Option<Settings>): Small
  {
    QUIET_HOST.(files := FilesAt({state + ["settings.json"]}), settings := settings)
  }

  /** The settings file does not decode: whatever it enables is lost. */
  lemma UndecodableSettings(hex: Hex, state: Path, pseudonym: Path -> string, installation: string)
    requires InjectivePaths(pseudonym)
    ensures LosesSilently(Target(hex, state, pseudonym, installation, SettingsHost(state, None)))
  {
    hide InjectivePaths, LosesSilently, CacheFits, NoneReserved, ManifestClean, SmallTree;
    FewEntries("");
    SmallLoss(hex, state, pseudonym, installation, SettingsHost(state, None));
  }

  function ManyEnabled(n: nat): map<string, bool> { map name | name in ManyNames(n) :: true }

  function ManySettings(plugins: nat, servers: nat): Settings { Settings(ManyEnabled(plugins), ManyEnabled(servers)) }

  lemma ManyEnabledCount(n: nat)
    ensures |ManyEnabled(n).Keys| == n
  {
    ManyNamesCount(n);
    assert ManyEnabled(n).Keys == ManyNames(n);
  }

  lemma SettingsFiles(t: ScanTarget, settings: Settings)
    requires t.w.host.read == FilesAt({t.state + ["settings.json"]}) && t.w.host.settings == Always(Some(settings))
    ensures SettingsFit(t) <==>
      |settings.enabledPlugins.Keys| <= MAX_SCANNED_ENTRIES && |settings.servers.Keys| <= MAX_SCANNED_ENTRIES
  {
  }

  /** More than 256 plugins or servers are configured: the names past the 256th are lost. */
  lemma CutSettings(hex: Hex, state: Path, pseudonym: Path -> string, installation: string, plugins: nat, servers: nat)
    requires InjectivePaths(pseudonym) && (plugins > MAX_SCANNED_ENTRIES || servers > MAX_SCANNED_ENTRIES)
    ensures LosesSilently(
      Target(hex, state, pseudonym, installation, SettingsHost(state, Some(ManySettings(plugins, servers)))))
  {
    hide InjectivePaths, LosesSilently, CacheFits, NoneReserved, ManifestClean, SmallTree, ManyEnabled, SettingsFit;
    FewEntries("");
    ManyEnabledCount(plugins);
    ManyEnabledCount(servers);
    var x := SettingsHost(state, Some(ManySettings(plugins, servers)));
    SettingsFiles(Target(hex, state, pseudonym, installation, x), ManySettings(plugins, servers));
    SmallLoss(hex, state, pseudonym, installation, x);
  }

  // ---------- pointer and package manifest ----------

  const ENABLED := Settings(map["f@m" := true], map[])

  function PointerHost(state: Path): Small
  {
    QUIET_HOST.(
      versions := [Dir("1"), Dir("2")],
      files := RefusedAt((state + ["plugins"]) + ["installed_plugins.json"], {state + ["settings.json"]}),
      settings := Some(ENABLED))
  }

  /** The active pointer is refused: an enabled plugin with two cached versions loses the contents of
      both to cached-only copies. */
  lemma RefusedPointer(hex: Hex, state: Path, pseudonym: Path -> string, installation: string)
    requires InjectivePaths(pseudonym)
    ensures var t := Target(hex, state, pseudonym, installation, PointerHost(state));
      && LosesSilently(t) && EnabledBySettings(t, "f@m") && |CacheAt(t).candidates| == 2
      && forall c :: c in CacheAt(t).candidates ==> c.name == "f@m" && !FoldedIn(t, c)
  {
    hide InjectivePaths, LosesSilently, CacheFits, NoneReserved, SettingsFit, CacheOf, SmallTree;
    hide EnabledBySettings, FoldedIn, Listable, Quiet;
    var t := Target(hex, state, pseudonym, installation, PointerHost(state));
    PointerFiles(t);
    FewEntries("");
    TwoVersionsListed();
    RefusedIsQuiet(state + ["plugins"], "installed_plugins.json", {state + ["settings.json"]}) by { SpecialNames(); }
    SmallLoss(hex, state, pseudonym, installation, PointerHost(state));
    OneEnabled(t);
    TwoCandidates(t);
    NoPointerNoneFolded(t);
  }

  lemma PointerFiles(t: ScanTarget)
    requires t.w.host.read == PointerHost(t.state).files && t.w.host.settings == Always(Some(ENABLED))
    ensures t.w.host.read(PointerPath(t)).ReadRefused? && SettingsOf(t) == Some(ENABLED)
    ensures !ManifestClean(t.w, PointerPath(t), t.w.host.installed)
  {
    assert PointerPath(t) == (t.state + ["plugins"]) + ["installed_plugins.json"];
    var settings := SettingsPath(t);
    assert |PointerPath(t)| == |t.state| + 2 && |settings| == |t.state| + 1;
    assert settings in {t.state + ["settings.json"]};
    assert t.w.host.read(settings) == Content("", false);
  }

  lemma TwoVersionsListed()
    ensures Listable([Dir("1"), Dir("2")])
  {
    assert Map(EntryName(), [Dir("1"), Dir("2")]) == ["1", "2"];
  }

  lemma OneEnabled(t: ScanTarget)
    requires SettingsOf(t) == Some(ENABLED)
    ensures EnabledBySettings(t, "f@m")
  {
    hide KeyList, ConfiguredPlugin;
    var keys := map["f@m" := true].Keys;
    assert keys == {"f@m"};
    FirstHoldsAllIff(keys, MAX_SCANNED_ENTRIES);
    assert "f@m" in keys;
  }

  lemma TwoCandidates(t: ScanTarget)
    requires ValidHost(t.w.host)
    requires t.w.host.list == SmallTree(t.state, [Dir("1"), Dir("2")], [], []) && t.w.host.probe == AllPresent()
    requires t.w.host.manifestName == Always(None)
    ensures |CacheAt(t).candidates| == 2 && forall c :: c in CacheAt(t).candidates ==> c.name == "f@m"
  {
    hide CacheRoot, CacheOf, AllPlaces, SmallTree, Candidate, ValidHost;
    var root := CacheRoot(t.state);
    SmallCandidates(t, [Dir("1"), Dir("2")], [], []);
    var places := AllPlaces(t.w, root, MAX_LISTING, ["m"]);
    forall c | c in CacheAt(t).candidates ensures c.name == "f@m" {
      var i :| 0 <= i < |places| && Map(Candidate(t.w, root), places)[i] == c;
      assert places[i] in places;
      NamedByFolder(t.w, root, places[i]);
    }
  }

  /** The candidates of a small host are its versions, one each. */
  lemma SmallCandidates(t: ScanTarget, versions: seq<Entry>, agents: seq<Entry>, personal: seq<Entry>)
    requires ValidHost(t.w.host) && t.w.host.probe == AllPresent()
    requires t.w.host.list == SmallTree(t.state, versions, agents, personal)
    requires |versions| <= MAX_CACHE_VERSIONS && forall e :: e in versions ==> Eligible(e)
    ensures var root := CacheRoot(t.state);
      var places := AllPlaces(t.w, root, MAX_LISTING, ["m"]);
      && CacheAt(t).candidates == Map(Candidate(t.w, root), places) && |places| == |versions|
      && forall p :: p in places ==> p.market == "m" && p.folder == "f"
  {
    hide CacheRoot, Version, Names, CacheOf, AllPlaces, SortStrings, SmallTree, Candidate, ValidHost;
    var root := CacheRoot(t.state);
    SmallListings(t.state, versions, agents, personal);
    NamesCount(t.w.host, root);
    NamesCount(t.w.host, root + ["m"]);
    NamesCount(t.w.host, root + ["m", "f"]);
    SmallPlaces(t.w, root);
    NoBoundForFew(t.w, root);
    NothingDroppedIff(t.w, t.state);
  }

  lemma SmallPlaces(w: World, root: Path)
    requires Names(w.host, root + ["m"]) == Some(["f"])
    requires Names(w.host, root + ["m", "f"]).Some? && |Names(w.host, root + ["m", "f"]).value| <= MAX_CACHE_VERSIONS
    ensures |AllPlaces(w, root, MAX_LISTING, ["m"])| == |Names(w.host, root + ["m", "f"]).value|
    ensures forall p :: p in AllPlaces(w, root, MAX_LISTING, ["m"]) ==> p.market == "m" && p.folder == "f"
  {
    hide Names;
    assert ["f"][..0] == [] && ["m"][..0] == [];
    var places := FolderPlaces(w, root, MAX_LISTING, "m", "f");
    assert FoldersPlaces(w, root, MAX_LISTING, "m", ["f"]) == [] + places;
    assert MarketPlaces(w, root, MAX_LISTING, "m") == places;
    assert AllPlaces(w, root, MAX_LISTING, ["m"]) == [] + places;
  }

  lemma NoBoundForFew(w: World, root: Path)
    requires Names(w.host, root + ["m"]) == Some(["f"])
    requires Names(w.host, root + ["m", "f"]).Some? && |Names(w.host, root + ["m", "f"]).value| <= MAX_CACHE_VERSIONS
    ensures NoBoundBinds(w, root, ["m"])
  {
    hide Names, AllPlaces;
    SmallPlaces(w, root);
    assert First(MAX_CACHE_MARKETPLACES, ["m"]) == ["m"] && ["m"][1..] == [];
    assert AllPlaces(w, root, MAX_LISTING, []) == [] by { NoPlaces(w, root); }
    assert forall f :: f in ["f"] ==> f == "f";
    assert MarketFits(w, root, "m");
  }

  lemma NoPlaces(w: World, root: Path)
    ensures AllPlaces(w, root, MAX_LISTING, []) == []
  {
  }

  lemma NamedByFolder(w: World, root: Path, p: Place)
    requires w.host.manifestName == Always(None) && p.market == "m" && p.folder == "f"
    ensures Candidate(w, root)(p).name == "f@m"
  {
    hide ScanOf, CommandsOf, AgentsOf, HooksOf, BundledServersOf;
    assert "f" + "@" + "m" == "f@m";
  }

  /** Without a pointer, two candidates of one name leave none folded in. */
  lemma NoPointerNoneFolded(t: ScanTarget)
    requires t.w.host.read(PointerPath(t)).ReadRefused?
    requires |CacheAt(t).candidates| == 2 && forall c :: c in CacheAt(t).candidates ==> c.name == "f@m"
    ensures forall c :: c in CacheAt(t).candidates ==> !FoldedIn(t, c)
  {
    hide CacheOf, Seed;
    AllOfOneName(CacheAt(t).candidates, "f@m");
    assert ActiveOf(t) == map[];
  }

  lemma {:induction false} AllOfOneName(candidates: seq<Plugin>, name: string)
    requires forall c :: c in candidates ==> c.name == name
    ensures Group(candidates, name) == candidates
  {
    hide Group;
    if candidates != [] {
      var n := |candidates| - 1;
      var front, last := candidates[..n], candidates[n];
      assert candidates == front + [last];
      AllOfOneName(front, name);
      GroupSnoc(front, last, name);
    } else {
      NobodyNamed(candidates, name);
    }
  }

  function RefusedManifestHost(state: Path): Small
  {
    QUIET_HOST.(versions := [Dir("1")], files := RefusedAt((Version(state) + [".claude-plugin"]) + ["plugin.json"], {}))
  }

  /** A package manifest is refused: the version goes by its folder's name. */
  lemma RefusedPackageManifest(hex: Hex, state: Path, pseudonym: Path -> string, installation: string)
    requires InjectivePaths(pseudonym)
    ensures LosesSilently(Target(hex, state, pseudonym, installation, RefusedManifestHost(state)))
  {
    hide InjectivePaths, LosesSilently, MarkdownFits, HooksFit, ServersFit, CacheRoot, PlaceDir, SmallTree;
    hide Quiet, Listable;
    var x := RefusedManifestHost(state);
    FewEntries("1");
    RefusedIsQuiet(Version(state) + [".claude-plugin"], "plugin.json", {}) by { SpecialNames(); }
    assert PackageManifest(Version(state)) == (Version(state) + [".claude-plugin"]) + ["plugin.json"];
    UnfitVersion(hex, state, pseudonym, installation, x);
  }

  // ---------- a listing the scan never comes to ----------

  function ManyMarkets(): seq<Entry> { seq(65, (i: nat) => Dir(Name(i))) }

  function SortedMarkets(): seq<string> { SortStrings(EligibleNames(ManyMarkets())) }

  /** A cache of 65 marketplaces, all empty but for the last in order, which cannot be listed. */
  function LateTree(root: Path): Path -> Listing
  {
    (p: Path) =>
      if p == root then Listed(ManyMarkets())
      else if |SortedMarkets()| > 64 && p == root + [SortedMarkets()[64]] then ListRefused
      else Listed([])
  }

  function LateHost(state: Path, pseudonym: Path -> string): Host
  {
    var root := CacheRoot(state);
    Host(p => if p == root then Present else Missing, LateTree(root), NoFiles(), p => false, pseudonym,
         Always(None), Always(None), Always(None), Always(None), Always(None), Always(None))
  }

  /** The 65th marketplace is past the limit, so that it is refused leaves no gap. */
  lemma RefusedPastTheLimit(hex: Hex, state: Path, pseudonym: Path -> string, installation: string)
    requires InjectivePaths(pseudonym)
    ensures LosesSilently(ScanTarget(World(hex, LateHost(state, pseudonym)), state, installation))
  {
    hide InjectivePaths, ManyMarkets, SortedMarkets, TotalOf, GapsAt, NothingLost, MarketsReached;
    hide AfterMarkets, CacheRoot;
    hide ValidHost, NoBoundBinds, Names;
    var t := ScanTarget(World(hex, LateHost(state, pseudonym)), state, installation);
    var root, names := CacheRoot(state), SortedMarkets();
    LateHostIsValid(state, pseudonym);
    LateNames(t.w, root);
    EmptyMarkets(t.w, root, names[..64]);
    assert First(MAX_CACHE_MARKETPLACES, names) == names[..64];
    assert CacheClean(t.w, state);
    RootsAreMissing(t);
    ScanTotal(t);
    assert names[64] in names && !MarketListed(t.w, root, names[64]);
    NothingLostIff(t);
  }

  lemma LateHostIsValid(state: Path, pseudonym: Path -> string)
    requires InjectivePaths(pseudonym)
    ensures ValidHost(LateHost(state, pseudonym))
  {
    hide InjectivePaths, SortedMarkets, CacheRoot, EligibleNames;
    forall i, j | 0 <= i < j < 65 ensures Dir(Name(i)).name != Dir(Name(j)).name {
      assert |Name(i)| == i && |Name(j)| == j;
    }
    assert ValidListing(Listed(ManyMarkets()));
  }

  /** The 65 names are distinct, and only the last of them cannot be listed. */
  lemma LateNames(w: World, root: Path)
    requires ValidHost(w.host) && w.host.list == LateTree(root)
    ensures var names := SortedMarkets();
      && |names| == 65 && Names(w.host, root) == Some(names) && Names(w.host, root + [names[64]]).None?
      && forall i :: 0 <= i < 64 ==> Names(w.host, root + [names[i]]) == Some([])
  {
    hide ValidHost, EligibleNames, SortedBy;
    assert |ManyMarkets()| == 65 && forall e :: e in ManyMarkets() ==> Eligible(e);
    NamesCount(w.host, root);
    NamesDistinct(w.host, root);
    var names := SortedMarkets();
    var late := root + [names[64]];
    assert |late| == |root| + 1 && late[|root|] == names[64];
    forall i | 0 <= i < 64 ensures Names(w.host, root + [names[i]]) == Some([]) {
      var p := root + [names[i]];
      assert p[|root|] == names[i] != names[64] && |p| == |root| + 1;
      NothingSorted();
    }
  }

  lemma NothingSorted()
    ensures SortStrings(EligibleNames([])) == []
  {
  }

  lemma {:induction false} EmptyMarkets(w: World, root: Path, markets: seq<string>)
    requires forall m :: m in markets ==> Names(w.host, root + [m]) == Some([])
    ensures AfterMarkets(w, root, markets).places == [] && MarketsReached(w, root, markets)
  {
    hide Names, MarketsReached;
    if markets == [] {
      NoMarkets(w, root, markets);
    } else {
      var n := |markets| - 1;
      assert markets == markets[..n] + [markets[n]];
      EmptyMarkets(w, root, markets[..n]);
      MarketsReachedSnoc(w, root, markets[..n], markets[n]);
    }
  }

  lemma RootsAreMissing(t: ScanTarget)
    requires t.w.host == LateHost(t.state, t.w.host.pseudonym)
    ensures forall scope :: Clean(t.w, ScopeRoot(t, scope), scope)
    ensures Clean(t.w, PersonalRoot(t), SCOPE_USER) && t.w.host.read(SettingsPath(t)).ReadMissing?
  {
    hide LateTree, Clean;
    forall scope ensures Clean(t.w, ScopeRoot(t, scope), scope) {
      var p := ScopeRoot(t, scope);
      assert p[|t.state|] == "skills" && CacheRoot(t.state)[|t.state|] == "plugins" && "skills"[0] != "plugins"[0];
      MissingIsClean(t.w, p, scope);
    }
    assert |PersonalRoot(t)| == |t.state| + 1 && |CacheRoot(t.state)| == |t.state| + 2;
    MissingIsClean(t.w, PersonalRoot(t), SCOPE_USER);
  }

  lemma MissingIsClean(w: World, root: Path, scope: string)
    requires w.host.probe(root).Missing?
    ensures Clean(w, root, scope)
  {
    hide SkillVisit;
  }

  // ---------- bundle limits ----------

  /** A text wherever a path ends in a markdown name. */
  function MarkdownTexts(): Path -> Read
  {
    (p: Path) => if p != [] && Markdown(Entry(p[|p| - 1], false, false)) then Content("", false) else ReadMissing
  }

  function AgentsHost(): Small
  {
    QUIET_HOST.(versions := [Dir("1")], agents := ManyFiles(257), files := MarkdownTexts())
  }

  /** The 257th agent of a version is lost. */
  lemma CutAgents(hex: Hex, state: Path, pseudonym: Path -> string, installation: string)
    requires InjectivePaths(pseudonym)
    ensures LosesSilently(Target(hex, state, pseudonym, installation, AgentsHost()))
  {
    hide InjectivePaths, LosesSilently, MarkdownFits, HooksFit, ServersFit, ManifestClean, CacheRoot;
    hide SmallTree, Listable, ManyFiles;
    hide Quiet, NoBoundBinds, Markdown, SmallHost, PlaceDir;
    var x := AgentsHost();
    var w := World(hex, SmallHost(state, pseudonym, x));
    SmallFields(state, pseudonym, x);
    MarkdownTextsAreQuiet();
    FewEntries("1");
    ManyFilesListed(257);
    SmallListings(state, [Dir("1")], ManyFiles(257), []);
    TooManyAgents(w, AgentsRoot(Version(state)));
    UnfitVersion(hex, state, pseudonym, installation, x);
  }

  lemma MarkdownTextsAreQuiet()
    ensures Quiet(MarkdownTexts())
  {
    hide Markdown;
  }

  lemma TooManyAgents(w: World, root: Path)
    requires w.host.read == MarkdownTexts() && w.host.list(root) == Listed(ManyFiles(257))
    requires w.host.probe(root).Present?
    ensures !MarkdownFits(w, root)
  {
    hide FoundIn, Reached, MarkdownVisit, ManyFiles;
    var entries, visit := ManyFiles(257), MarkdownVisit(w, root);
    ManyFilesListed(257);
    forall e | e in entries ensures visit(e).Found? { AgentText(w, root, e); }
    AllFound(visit, entries);
    ReachedIsPrefix(visit, MAX_BUNDLED, entries);
    var rest := Unreached(visit, MAX_BUNDLED, entries);
    assert Reached(visit, MAX_BUNDLED, entries) != entries;
    assert |rest| > 0;
    assert rest[0] in rest && rest[0] in entries;
  }

  lemma AgentText(w: World, root: Path, e: Entry)
    requires w.host.read == MarkdownTexts() && Markdown(e)
    ensures MarkdownVisit(w, root)(e).Found?
  {
    hide Markdown, FileVisit, ItemName;
    var p := root + [e.name];
    assert p[|p| - 1] == e.name;
    SameKind(e);
    TextIsFound(w, p, e, ItemFrom(w, p, e));
  }

  lemma TextIsFound<T>(w: World, path: Path, e: Entry, parse: string -> Option<T>)
    requires w.host.read(path) == Content("", false) && parse("").Some?
    ensures FileVisit(w, path, e, parse).Found?
  {
  }

  lemma SameKind(e: Entry)
    requires Markdown(e)
    ensures Markdown(Entry(e.name, false, false))
  {
  }

  lemma {:induction false} AllFound<T>(visit: Entry -> Visit<T>, entries: seq<Entry>)
    requires forall e :: e in entries ==> visit(e).Found?
    ensures |FoundIn(visit, entries)| == |entries|
  {
    if entries != [] { AllFound(visit, entries[..|entries| - 1]); }
  }

  function DeclarationsHost(state: Path, events: set<string>, servers: map<string, Declaration>): Small
  {
    QUIET_HOST.(
      versions := [Dir("1")],
      files := FilesAt({HooksPath(Version(state)), ServersPath(Version(state))}),
      events := events, servers := servers)
  }

  /** More than 256 hook events, 256 servers, or 128 tools of one server: the rest are lost. */
  lemma CutDeclarations(hex: Hex, state: Path, pseudonym: Path -> string, installation: string,
                        events: set<string>, servers: map<string, Declaration>)
    requires InjectivePaths(pseudonym)
    requires
      || |events| > MAX_BUNDLED || |servers.Keys| > MAX_BUNDLED
      || exists name :: name in servers && |servers[name].tools| > MAX_TOOLS
    ensures LosesSilently(Target(hex, state, pseudonym, installation, DeclarationsHost(state, events, servers)))
  {
    hide InjectivePaths, LosesSilently, MarkdownFits, ManifestClean, CacheRoot, SmallTree, Listable;
    hide SmallHost, Quiet, PlaceDir;
    var x := DeclarationsHost(state, events, servers);
    var w, dir := World(hex, SmallHost(state, pseudonym, x)), Version(state);
    SmallFields(state, pseudonym, x);
    FilesAreQuiet({HooksPath(dir), ServersPath(dir)});
    FewEntries("1");
    assert Decoded(w, HooksPath(dir), w.host.hookEvents) == Some(events);
    assert Decoded(w, ServersPath(dir), w.host.declarations) == Some(servers);
    assert !HooksFit(w, dir) || !ServersFit(w, dir);
    UnfitVersion(hex, state, pseudonym, installation, x);
  }

  // ---------- personal skills ----------

  function PersonalHost(state: Path, directory: string): Small
  {
    QUIET_HOST.(
      personal := [Dir(directory)],
      files := FilesAt({state + ["skills", directory, "SKILL.md"]}),
      name := "user")
  }

  /** A personal skill in a directory of any name declares itself "user". */
  lemma ReservedPersonalSkill(hex: Hex, state: Path, pseudonym: Path -> string, installation: string, directory: string)
    requires InjectivePaths(pseudonym)
    ensures var t := Target(hex, state, pseudonym, installation, PersonalHost(state, directory));
      LosesSilently(t) && |PersonalScan(t).skills| == 1 && Unreserved(PersonalScan(t).skills) == []
  {
    hide InjectivePaths, LosesSilently, CacheFits, SettingsFit, ManifestClean, NoneReserved, SmallTree;
    hide ScanOf, Listable, SmallHost, Quiet, Unreserved;
    var x := PersonalHost(state, directory);
    var t := Target(hex, state, pseudonym, installation, x);
    SmallFields(state, pseudonym, x);
    FilesAreQuiet({state + ["skills", directory, "SKILL.md"]});
    FewEntries(directory);
    SmallListings(state, [], [], [Dir(directory)]);
    OnePersonalSkill(t, directory);
    SmallLoss(hex, state, pseudonym, installation, x);
  }

  lemma OnePersonalSkill(t: ScanTarget, directory: string)
    requires t.w.host.probe(PersonalRoot(t)).Present? && t.w.host.list(PersonalRoot(t)) == Listed([Dir(directory)])
    requires t.w.host.read == FilesAt({t.state + ["skills", directory, "SKILL.md"]})
    requires t.w.host.frontmatterName("") == Some("user")
    ensures |PersonalScan(t).skills| == 1 && PersonalScan(t).skills[0].name == "user"
    ensures Unreserved(PersonalScan(t).skills) == [] && !NoneReserved(t)
  {
    var root, e := PersonalRoot(t), Dir(directory);
    assert ManifestPath(root, e.name) == t.state + ["skills", directory, "SKILL.md"];
    var visit := SkillVisit(t.w, root, SCOPE_USER);
    assert visit(e).Found? && visit(e).item.name == "user";
    assert [e][..0] == [];
    assert FoundIn(visit, [e]) == [visit(e).item];
    var skills := PersonalScan(t).skills;
    SameMembers(skills, [visit(e).item]);
    SameLength(skills, [visit(e).item]);
    assert skills[0] in skills && skills[0] == visit(e).item;
    assert skills[..0] == [];
    assert SCOPES[0] == "user";
  }

  // ---------- a tool listed twice ----------

  const TWICE := map["server" := Declaration(false, ["tool", "tool"])]

  /** A bundled server lists a tool twice: the built graph repeats a node id. */
  lemma ToolListedTwice(hex: Hex, state: Path, pseudonym: Path -> string, installation: string,
                        input: Input, now: int, s: Snapshot)
    requires InjectivePaths(pseudonym) && Injective(hex)
    requires IsScan(Target(hex, state, pseudonym, installation, DeclarationsHost(state, {}, TWICE)), input)
    requires IsSnapshot(hex, input, now, s)
    ensures !NoDuplicates(Map(IdOf(), s.nodes))
  {
    hide InjectivePaths, Injective, IsScan, IsSnapshot, SmallHost, SmallTree, CacheRoot, CacheOf, Components;
    hide Tools, NoDuplicates, ValidHost;
    hide Calm, Listable, Quiet, AllPlaces, Candidate, MakeServer, Decoded;
    var x := DeclarationsHost(state, {}, TWICE);
    var t := Target(hex, state, pseudonym, installation, x);
    var root := CacheRoot(state);
    SmallFields(state, pseudonym, x);
    FewEntries("1");
    FilesAreQuiet({HooksPath(Version(state)), ServersPath(Version(state))});
    SmallIsCalm(state, pseudonym, x);
    OnePlace(t.w, state, [], []);
    SmallCandidates(t, [Dir("1")], [], []);
    var c := Candidate(t.w, root)(VERSION);
    CandidateOf(t.w, root, AllPlaces(t.w, root, MAX_LISTING, ["m"]), VERSION);
    var server := TwiceBundled(t.w, root);
    var p := CandidateIsCarried(t, input, c);
    assert server in Components(p) && !NoDuplicates(Tools(server));
    ScannedGraphIsSound(t, input, now, s);
  }

  lemma CandidateOf(w: World, root: Path, places: seq<Place>, p: Place)
    requires p in places
    ensures Candidate(w, root)(p) in Map(Candidate(w, root), places)
  {
    hide Candidate;
    var i :| 0 <= i < |places| && places[i] == p;
    assert Map(Candidate(w, root), places)[i] == Candidate(w, root)(p);
  }

  lemma TwiceBundled(w: World, root: Path) returns (server: Component)
    requires w.host.read(ServersPath(PlaceDir(root, VERSION))) == Content("", false)
    requires w.host.declarations == Always(Some(TWICE))
    ensures server in Components(Candidate(w, root)(VERSION)) && !NoDuplicates(Tools(server))
  {
    hide MakeServer, ScanOf, CommandsOf, AgentsOf, HooksOf, BundledServersOf, PlaceDir, DeclaredName;
    var dir := PlaceDir(root, VERSION);
    ServerKept(w, dir, TWICE, "server") by { TwiceDecoded(w, dir); }
    OnlyServer();
    var c :| c in BundledServersOf(w, dir) && c.name == "server" && multiset(c.tools) == multiset(["tool", "tool"]);
    TwoOfAKind(c.tools);
    server := c;
  }

  lemma TwiceDecoded(w: World, dir: Path)
    requires w.host.read(ServersPath(dir)) == Content("", false) && w.host.declarations == Always(Some(TWICE))
    ensures Decoded(w, ServersPath(dir), w.host.declarations) == Some(TWICE)
  {
  }

  lemma OnlyServer()
    ensures "server" in First(MAX_BUNDLED, KeyList(TWICE.Keys))
  {
    hide KeyList;
    assert TWICE.Keys == {"server"};
    FirstHoldsAllIff(TWICE.Keys, MAX_BUNDLED);
    assert "server" in TWICE.Keys;
  }

  lemma TwoOfAKind(tools: seq<string>)
    requires multiset(tools) == multiset(["tool", "tool"])
    ensures !NoDuplicates(tools)
  {
    SameLength(tools, ["tool", "tool"]);
    SameMembers(tools, ["tool", "tool"]);
    assert tools[0] in tools && tools[1] in tools;
    assert tools[0] == "tool" == tools[1];
  }
}
