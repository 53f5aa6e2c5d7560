/** The four other child kinds of a plugin version (internal/claudeadapter/pluginbundlescan.go):
    agents and commands from markdown files, hooks from hooks.json, MCP servers from .mcp.json. */
module BundleScan {
  import opened Ordering
  import opened CoverageGaps
  import opened InventoryTypes
  import opened InventoryGraph
  import opened HostTree
  import opened Visits
  import opened SkillScan
  import GraphIdentity

  // ---------- markdown roots ----------

  datatype Item = Item(name: string, path: string, fingerprint: string)

  const EXTENSION := ".md"

  predicate Markdown(e: Entry)
  {
    !e.isDir && |e.name| >= |EXTENSION| && e.name[|e.name| - |EXTENSION|..] == EXTENSION
  }

  /** The declared name, or the file's base name when none is declared. */
  function ItemName(w: World, e: Entry, text: string): string
    requires Markdown(e)
  {
    match w.host.frontmatterName(text)
    case Some(name) => if name == "" then e.name[..|e.name| - |EXTENSION|] else name
    case None => e.name[..|e.name| - |EXTENSION|]
  }

  function ItemFrom(w: World, path: Path, e: Entry): string -> Option<Item>
  {
    (text: string) =>
      if Markdown(e) then
        var name := ItemName(w, e, text);
        Some(Item(name, w.host.pseudonym(path), w.hex(["bundled-manifest", SCOPE_PLUGIN_CACHE, name, text])))
      else None
  }

  function MarkdownVisit(w: World, root: Path): Entry -> Visit<Item>
  {
    (e: Entry) =>
      if Markdown(e) then FileVisit(w, root + [e.name], e, ItemFrom(w, root + [e.name], e)) else Ineligible
  }

  /** The component a markdown file is: under its declared name, or its own without the extension. */
  predicate ItemFromFile(w: World, path: Path, e: Entry, x: Item)
  {
    var declared := w.host.frontmatterName(WholeText(w, path));
    && Whole(w, path) && x.path == w.host.pseudonym(path)
    && (if declared.Some? && declared.value != "" then x.name == declared.value else x.name + ".md" == e.name)
    && x.fingerprint == w.hex(["bundled-manifest", "plugin_cache", x.name, WholeText(w, path)])
  }

  /** Nothing of the file is lost: it is gone, or was read whole. */
  predicate FileTakenIn(w: World, root: Path, e: Entry)
  {
    Markdown(e) ==> NoFile(w, root + [e.name], e) || Whole(w, root + [e.name])
  }

  lemma FileTakenInMeans(w: World, root: Path, e: Entry)
    ensures !MarkdownVisit(w, root)(e).Missed? <==> FileTakenIn(w, root, e)
  {
  }

  predicate ItemLeq(x: Item, y: Item)
  {
    if x.name == y.name then StringLeq(x.path, y.path) else StringLeq(x.name, y.name)
  }

  lemma ItemLeqIsOrder()
    ensures Total(ItemLeq) && Transitive(ItemLeq)
  {
    forall x: Item, y: Item ensures ItemLeq(x, y) || ItemLeq(y, x) {
      StringLeqTotal(x.name, y.name);
      StringLeqTotal(x.path, y.path);
    }
    forall x: Item, y: Item, z: Item | ItemLeq(x, y) && ItemLeq(y, z) ensures ItemLeq(x, z) {
      ItemLeqTransitive(x, y, z);
    }
  }

  lemma ItemLeqTransitive(x: Item, y: Item, z: Item)
    requires ItemLeq(x, y) && ItemLeq(y, z)
    ensures ItemLeq(x, z)
  {
    if x.name == y.name == z.name {
      StringLeqTransitive(x.path, y.path, z.path);
    } else if x.name != y.name && y.name != z.name {
      StringLeqTransitive(x.name, y.name, z.name);
      if x.name == z.name { StringLeqAntisymmetric(x.name, y.name); }
    }
  }

  datatype Items = Items(items: seq<Item>, gaps: Tally)

  /** What scanning one markdown root returns: it stops at the 256th component. */
  function ItemsOf(w: World, root: Path): Items
  {
    var listing := w.host.list(root);
    if w.host.probe(root).Missing? then Items([], map[])
    else if w.host.probe(root).Refused? || listing.ListRefused? then Items([], Added(map[], RootGap(w.host, root)))
    else
      var visit := MarkdownVisit(w, root);
      var reached := Reached(visit, MAX_BUNDLED, listing.entries);
      Items(SortedBy(ItemLeq, FoundIn(visit, reached)), GapsIn(visit, reached))
  }

  method ScanMarkdownRoot(w: World, root: Path) returns (items: seq<Item>, tally: Tally)
    requires ValidHost(w.host)
    ensures Items(items, tally) == ItemsOf(w, root)
  {
    hide FoundIn, GapsIn, Added, InjectivePaths, ItemLeq, Ordered, Reached;
    var gaps := new Gaps();
    match w.host.probe(root) {
      case Refused =>
        gaps.Add(RootGap(w.host, root));
        return [], gaps.tally;
      case Missing =>
        return [], map[];
      case Present =>
    }
    var listing := w.host.list(root);
    if listing.ListRefused? {
      gaps.Add(RootGap(w.host, root));
      return [], gaps.tally;
    }
    var entries := listing.entries;
    ghost var visit := MarkdownVisit(w, root);
    var found: seq<Item> := [];
    StartOfRoot(visit, entries[..0]);
    for i := 0 to |entries|
      invariant found == FoundIn(visit, Reached(visit, MAX_BUNDLED, entries[..i]))
      invariant gaps.tally == GapsIn(visit, Reached(visit, MAX_BUNDLED, entries[..i]))
    {
      var e := entries[i];
      if |found| >= MAX_BUNDLED {
        ReachedStays(visit, MAX_BUNDLED, entries, i);
        break;
      }
      assert entries[..i + 1] == entries[..i] + [e];
      ReachedSnoc(visit, MAX_BUNDLED, entries[..i], e);
      OneMoreEntry(visit, Reached(visit, MAX_BUNDLED, entries[..i]), e);
      if !Markdown(e) { continue; }
      var path := root + [e.name];
      match w.host.read(path) {
        case ReadRefused =>
          if e.isSymlink { gaps.Add(UNRESOLVABLE_SYMLINK); } else { gaps.Add(UNREADABLE); }
        case ReadMissing =>
          if e.isSymlink { gaps.Add(UNRESOLVABLE_SYMLINK); }
        case Content(text, truncated) =>
          if truncated {
            gaps.Add(TRUNCATED);
          } else {
            var name := ItemName(w, e, text);
            found := found
              + [Item(name, w.host.pseudonym(path), w.hex(["bundled-manifest", SCOPE_PLUGIN_CACHE, name, text]))];
          }
      }
    }
    assert entries[..|entries|] == entries;
    ItemLeqIsOrder();
    items := SortBy(found, ItemLeq);
    OneSortedItemList(w, root, entries, items);
    return items, gaps.tally;
  }

  lemma StartOfRoot<T>(visit: Entry -> Visit<T>, none: seq<Entry>)
    requires none == []
    ensures FoundIn(visit, Reached(visit, MAX_BUNDLED, none)) == []
    ensures GapsIn(visit, Reached(visit, MAX_BUNDLED, none)) == map[]
  {
  }

  function ItemPath(): Item -> string
  {
    (x: Item) => x.path
  }

  lemma ItemPathsSeparate(w: World, root: Path)
    requires InjectivePaths(w.host.pseudonym)
    ensures Separates(MarkdownVisit(w, root), ItemPath())
  {
    hide MarkdownVisit;
    var visit := MarkdownVisit(w, root);
    forall e, f | visit(e).Found? && visit(f).Found? && ItemPath()(visit(e).item) == ItemPath()(visit(f).item)
      ensures e.name == f.name
    {
      FoundItemPath(w, root, e);
      FoundItemPath(w, root, f);
      var p, q := root + [e.name], root + [f.name];
      assert p == q && p[|root|] == e.name && q[|root|] == f.name;
    }
  }

  lemma FoundItemPath(w: World, root: Path, e: Entry)
    requires MarkdownVisit(w, root)(e).Found?
    ensures MarkdownVisit(w, root)(e).item.path == w.host.pseudonym(root + [e.name])
  {
  }

  lemma NamesOfPrefix(entries: seq<Entry>, front: seq<Entry>)
    requires front <= entries && NoDuplicates(Map(EntryName(), entries))
    ensures NoDuplicates(Map(EntryName(), front))
  {
    var names := Map(EntryName(), entries);
    assert Map(EntryName(), front) == names[..|front|];
  }

  lemma FoundItemsDistinct(w: World, root: Path, entries: seq<Entry>)
    requires InjectivePaths(w.host.pseudonym) && NoDuplicates(Map(EntryName(), entries))
    ensures NoDuplicates(Map(ItemPath(),
                             FoundIn(MarkdownVisit(w, root), Reached(MarkdownVisit(w, root), MAX_BUNDLED, entries))))
  {
    hide MarkdownVisit, FoundIn, Reached;
    var visit := MarkdownVisit(w, root);
    ItemPathsSeparate(w, root);
    ReachedIsPrefix(visit, MAX_BUNDLED, entries);
    NamesOfPrefix(entries, Reached(visit, MAX_BUNDLED, entries));
    FoundDistinct(visit, ItemPath(), Reached(visit, MAX_BUNDLED, entries));
  }

  lemma OneSortedItemList(w: World, root: Path, entries: seq<Entry>, r: seq<Item>)
    requires InjectivePaths(w.host.pseudonym) && ValidListing(Listed(entries))
    requires var visit := MarkdownVisit(w, root);
      Ordered(ItemLeq, r) && multiset(r) == multiset(FoundIn(visit, Reached(visit, MAX_BUNDLED, entries)))
    ensures var visit := MarkdownVisit(w, root);
      r == SortedBy(ItemLeq, FoundIn(visit, Reached(visit, MAX_BUNDLED, entries)))
  {
    hide FoundIn, SortedBy, ItemLeq, MarkdownVisit, Reached;
    var found := FoundIn(MarkdownVisit(w, root), Reached(MarkdownVisit(w, root), MAX_BUNDLED, entries));
    FoundItemsDistinct(w, root, entries);
    ItemLeqIsOrder();
    forall x, y | x in found && y in found && ItemLeq(x, y) && ItemLeq(y, x) ensures x == y {
      ItemTie(x, y);
      GraphIdentity.SameKeySameElement(ItemPath(), found, x, y);
    }
    SortedByUnique(ItemLeq, found, r);
  }

  lemma ItemTie(x: Item, y: Item)
    requires ItemLeq(x, y) && ItemLeq(y, x)
    ensures x.path == y.path
  {
    if x.name == y.name { StringLeqAntisymmetric(x.path, y.path); } else { StringLeqAntisymmetric(x.name, y.name); }
  }

  /** Every markdown file of a root that could be listed is a component, a recorded gap, absent, or
      past the 256th component. */
  lemma MarkdownAccounted(w: World, root: Path)
    requires w.host.probe(root).Present? && w.host.list(root).Listed?
    ensures var entries, visit, scan := w.host.list(root).entries, MarkdownVisit(w, root), ItemsOf(w, root);
      CountOf(IsCandidate(visit), entries) ==
        |scan.items| + TotalOf(scan.gaps) + CountOf(IsAbsent(visit), Reached(visit, MAX_BUNDLED, entries))
        + CountOf(IsCandidate(visit), Unreached(visit, MAX_BUNDLED, entries))
  {
    hide FoundIn, GapsIn, IsCandidate, IsAbsent, MarkdownVisit, Reached, CountOf;
    var entries, visit := w.host.list(root).entries, MarkdownVisit(w, root);
    var found := FoundIn(visit, Reached(visit, MAX_BUNDLED, entries));
    LimitedAccounted(visit, MAX_BUNDLED, entries);
    SameLength(SortedBy(ItemLeq, found), found);
  }

  /** No recorded gap of a markdown root has a cause. */
  ghost predicate MarkdownClean(w: World, root: Path)
  {
    match w.host.probe(root)
    case Refused => false
    case Missing => true
    case Present =>
      match w.host.list(root)
      case ListRefused => false
      case Listed(entries) =>
        forall e :: e in Reached(MarkdownVisit(w, root), MAX_BUNDLED, entries) ==> FileTakenIn(w, root, e)
  }

  lemma ZeroMeansMarkdownClean(w: World, root: Path)
    ensures TotalOf(ItemsOf(w, root).gaps) >= 0
    ensures TotalOf(ItemsOf(w, root).gaps) == 0 <==> MarkdownClean(w, root)
  {
    hide MarkdownVisit, GapsIn, Reached, FileTakenIn;
    forall e ensures !MarkdownVisit(w, root)(e).Missed? <==> FileTakenIn(w, root, e) { FileTakenInMeans(w, root, e); }
    TotalsAdd(map[], map[], RootGap(w.host, root));
    assert TotalOf(map[]) == 0;
    if w.host.probe(root).Present? && w.host.list(root).Listed? {
      NoGapsMeansNoneMissed(MarkdownVisit(w, root),
                            Reached(MarkdownVisit(w, root), MAX_BUNDLED, w.host.list(root).entries));
    }
  }

  // ---------- agents and commands ----------

  function AgentsRoot(dir: Path): Path { dir + ["agents"] }

  function CommandsRoot(dir: Path): Path { dir + ["commands"] }

  function AgentOf(): Item -> SubagentDescriptor
  {
    (x: Item) => MakeAgent(x)
  }

  function MakeAgent(x: Item): SubagentDescriptor { Subagent(x.name, SCOPE_PLUGIN_CACHE, true, x.path, x.fingerprint) }

  function CommandOf(): Item -> CommandDescriptor
  {
    (x: Item) => MakeCommand(x)
  }

  function MakeCommand(x: Item): CommandDescriptor { Command(x.name, SCOPE_PLUGIN_CACHE, true, x.path, x.fingerprint) }

  function AgentsOf(w: World, dir: Path): seq<SubagentDescriptor>
  {
    Map(AgentOf(), ItemsOf(w, AgentsRoot(dir)).items)
  }

  function CommandsOf(w: World, dir: Path): seq<CommandDescriptor>
  {
    Map(CommandOf(), ItemsOf(w, CommandsRoot(dir)).items)
  }

  method ScanSubagents(w: World, dir: Path) returns (agents: seq<SubagentDescriptor>, gaps: Tally)
    requires ValidHost(w.host)
    ensures agents == AgentsOf(w, dir) && gaps == ItemsOf(w, AgentsRoot(dir)).gaps
  {
    hide ItemsOf, ValidHost;
    var items;
    items, gaps := ScanMarkdownRoot(w, AgentsRoot(dir));
    agents := [];
    for i := 0 to |items|
      invariant agents == Map(AgentOf(), items[..i])
    {
      assert items[..i + 1] == items[..i] + [items[i]];
      agents := agents + [MakeAgent(items[i])];
    }
    assert items[..|items|] == items;
  }

  method ScanCommands(w: World, dir: Path) returns (commands: seq<CommandDescriptor>, gaps: Tally)
    requires ValidHost(w.host)
    ensures commands == CommandsOf(w, dir) && gaps == ItemsOf(w, CommandsRoot(dir)).gaps
  {
    hide ItemsOf, ValidHost;
    var items;
    items, gaps := ScanMarkdownRoot(w, CommandsRoot(dir));
    commands := [];
    for i := 0 to |items|
      invariant commands == Map(CommandOf(), items[..i])
    {
      assert items[..i + 1] == items[..i] + [items[i]];
      commands := commands + [MakeCommand(items[i])];
    }
    assert items[..|items|] == items;
  }

  // ---------- one manifest file ----------

  /** The gap that reading a manifest leaves: an absent one leaves none. */
  function ManifestGaps<T>(w: World, path: Path, parse: string -> Option<T>): Tally
  {
    match w.host.read(path)
    case ReadRefused => Added(map[], UNREADABLE)
    case ReadMissing => map[]
    case Content(text, truncated) =>
      if truncated then Added(map[], TRUNCATED) else if parse(text).None? then Added(map[], UNPARSEABLE) else map[]
  }

  /** A manifest's decoded text, unless it is absent, refused, cut short or malformed. */
  function Decoded<T>(w: World, path: Path, parse: string -> Option<T>): Option<T>
  {
    match w.host.read(path)
    case Content(text, false) => parse(text)
    case _ => None
  }

  predicate ManifestClean<T>(w: World, path: Path, parse: string -> Option<T>)
  {
    w.host.read(path).ReadMissing? || Decoded(w, path, parse).Some?
  }

  lemma ZeroMeansManifestClean<T>(w: World, path: Path, parse: string -> Option<T>)
    ensures TotalOf(ManifestGaps(w, path, parse)) >= 0
    ensures TotalOf(ManifestGaps(w, path, parse)) == 0 <==> ManifestClean(w, path, parse)
  {
    assert TotalOf(map[]) == 0;
    TotalsAdd(map[], map[], UNREADABLE);
    TotalsAdd(map[], map[], TRUNCATED);
    TotalsAdd(map[], map[], UNPARSEABLE);
  }

  // ---------- hooks ----------

  function HooksPath(dir: Path): Path { dir + ["hooks", "hooks.json"] }

  function TextAt(w: World, path: Path): string
  {
    match w.host.read(path) case Content(text, _) => text case _ => ""
  }

  /** Bundled hooks are never trusted: the scan has no evidence of trust. */
  function MakeHook(w: World, dir: Path, event: string): HookDescriptor
  {
    Hook(event, SCOPE_PLUGIN_CACHE, true, false, w.host.pseudonym(HooksPath(dir)),
         w.hex(["bundled-hook", event, TextAt(w, HooksPath(dir))]))
  }

  function HookOf(w: World, dir: Path): string -> HookDescriptor
  {
    (event: string) => MakeHook(w, dir, event)
  }

  ghost function HooksOf(w: World, dir: Path): seq<HookDescriptor>
  {
    match Decoded(w, HooksPath(dir), w.host.hookEvents)
    case None => []
    case Some(events) => Map(HookOf(w, dir), First(MAX_BUNDLED, KeyList(events)))
  }

  method FirstSorted(keys: set<string>, limit: nat) returns (names: seq<string>)
    ensures names == First(limit, KeyList(keys))
  {
    var sorted := SortedKeys(keys);
    KeyListUnique(keys, sorted);
    names := First(limit, sorted);
  }

  method ScanHooks(w: World, dir: Path) returns (hooks: seq<HookDescriptor>, tally: Tally)
    ensures hooks == HooksOf(w, dir) && tally == ManifestGaps(w, HooksPath(dir), w.host.hookEvents)
  {
    hide Added, KeyList, MakeHook;
    var gaps := new Gaps();
    hooks := [];
    match w.host.read(HooksPath(dir)) {
      case ReadRefused => gaps.Add(UNREADABLE);
      case ReadMissing =>
      case Content(text, truncated) =>
        if truncated {
          gaps.Add(TRUNCATED);
        } else if w.host.hookEvents(text).None? {
          gaps.Add(UNPARSEABLE);
        } else {
          var events := FirstSorted(w.host.hookEvents(text).value, MAX_BUNDLED);
          for i := 0 to |events|
            invariant hooks == Map(HookOf(w, dir), events[..i])
          {
            assert events[..i + 1] == events[..i] + [events[i]];
            hooks := hooks + [MakeHook(w, dir, events[i])];
          }
          assert events[..|events|] == events;
        }
    }
    tally := gaps.tally;
  }

  // ---------- MCP servers ----------

  function ServersPath(dir: Path): Path { dir + [".mcp.json"] }

  function MakeServer(w: World, dir: Path, name: string, d: Declaration): ServerDescriptor
  {
    McpServer(name, SCOPE_PLUGIN_CACHE, !d.disabled, First(MAX_TOOLS, SortStrings(d.tools)),
              w.host.pseudonym(ServersPath(dir)),
              w.hex(["bundled-mcp", name, TextAt(w, ServersPath(dir))]))
  }

  function DeclaredAs(servers: map<string, Declaration>, name: string): Declaration
  {
    if name in servers then servers[name] else Declaration(false, [])
  }

  function ServerOf(w: World, dir: Path, servers: map<string, Declaration>): string -> ServerDescriptor
  {
    (name: string) => MakeServer(w, dir, name, DeclaredAs(servers, name))
  }

  ghost function BundledServersOf(w: World, dir: Path): seq<ServerDescriptor>
  {
    match Decoded(w, ServersPath(dir), w.host.declarations)
    case None => []
    case Some(servers) => Map(ServerOf(w, dir, servers), First(MAX_BUNDLED, KeyList(servers.Keys)))
  }

  method ScanServers(w: World, dir: Path) returns (servers: seq<ServerDescriptor>, tally: Tally)
    ensures servers == BundledServersOf(w, dir) && tally == ManifestGaps(w, ServersPath(dir), w.host.declarations)
  {
    hide Added, KeyList, MakeServer;
    var gaps := new Gaps();
    servers := [];
    match w.host.read(ServersPath(dir)) {
      case ReadRefused => gaps.Add(UNREADABLE);
      case ReadMissing =>
      case Content(text, truncated) =>
        if truncated {
          gaps.Add(TRUNCATED);
        } else if w.host.declarations(text).None? {
          gaps.Add(UNPARSEABLE);
        } else {
          var declared := w.host.declarations(text).value;
          var names := FirstSorted(declared.Keys, MAX_BUNDLED);
          for i := 0 to |names|
            invariant servers == Map(ServerOf(w, dir, declared), names[..i])
          {
            assert names[..i + 1] == names[..i] + [names[i]];
            servers := servers + [MakeServer(w, dir, names[i], DeclaredAs(declared, names[i]))];
          }
          assert names[..|names|] == names;
        }
    }
    tally := gaps.tally;
  }

  // ---------- distinct children ----------

  ghost function BundleComponents(w: World, dir: Path): seq<Component>
  {
    CommandsOf(w, dir) + AgentsOf(w, dir) + HooksOf(w, dir) + BundledServersOf(w, dir)
  }

  lemma ScannedItemsDistinct(w: World, root: Path)
    requires ValidHost(w.host)
    ensures NoDuplicates(Map(ItemPath(), ItemsOf(w, root).items))
  {
    hide FoundIn, SortedBy, MarkdownVisit, GapsIn, Reached;
    var items, visit := ItemsOf(w, root).items, MarkdownVisit(w, root);
    if items != [] {
      var entries := w.host.list(root).entries;
      assert ValidListing(w.host.list(root));
      var found := FoundIn(visit, Reached(visit, MAX_BUNDLED, entries));
      FoundItemsDistinct(w, root, entries);
      MapBag(ItemPath(), found, items);
      BagDecidesDuplicates(Map(ItemPath(), found), Map(ItemPath(), items));
    }
  }

  lemma ItemKeysDistinct(w: World, dir: Path)
    requires ValidHost(w.host)
    ensures GraphIdentity.DistinctComponents(CommandsOf(w, dir)) && GraphIdentity.DistinctComponents(AgentsOf(w, dir))
  {
    hide ItemsOf, ValidHost;
    var key := GraphIdentity.KeyOf();
    var commands, agents := ItemsOf(w, CommandsRoot(dir)).items, ItemsOf(w, AgentsRoot(dir)).items;
    ScannedItemsDistinct(w, CommandsRoot(dir));
    ScannedItemsDistinct(w, AgentsRoot(dir));
    forall i, j | 0 <= i < j < |commands| ensures Map(key, CommandsOf(w, dir))[i] != Map(key, CommandsOf(w, dir))[j] {
      assert Map(ItemPath(), commands)[i] != Map(ItemPath(), commands)[j];
    }
    forall i, j | 0 <= i < j < |agents| ensures Map(key, AgentsOf(w, dir))[i] != Map(key, AgentsOf(w, dir))[j] {
      assert Map(ItemPath(), agents)[i] != Map(ItemPath(), agents)[j];
    }
  }

  lemma KeyKeysDistinct(w: World, dir: Path)
    ensures GraphIdentity.DistinctComponents(HooksOf(w, dir))
    ensures GraphIdentity.DistinctComponents(BundledServersOf(w, dir))
  {
    hide KeyList, Decoded;
    var key := GraphIdentity.KeyOf();
    if Decoded(w, HooksPath(dir), w.host.hookEvents).Some? {
      var events := KeyList(Decoded(w, HooksPath(dir), w.host.hookEvents).value);
      KeyListIs(Decoded(w, HooksPath(dir), w.host.hookEvents).value);
      var first := First(MAX_BUNDLED, events);
      forall i, j | 0 <= i < j < |first| ensures Map(key, HooksOf(w, dir))[i] != Map(key, HooksOf(w, dir))[j] {
        assert events[i] != events[j];
      }
    }
    if Decoded(w, ServersPath(dir), w.host.declarations).Some? {
      var declared := Decoded(w, ServersPath(dir), w.host.declarations).value;
      var names := KeyList(declared.Keys);
      KeyListIs(declared.Keys);
      var first := First(MAX_BUNDLED, names);
      forall i, j | 0 <= i < j < |first|
        ensures Map(key, BundledServersOf(w, dir))[i] != Map(key, BundledServersOf(w, dir))[j]
      {
        assert names[i] != names[j];
      }
    }
  }

  /** Components of different kinds have different keys. */
  lemma KindsApart(s: seq<Component>, t: seq<Component>)
    requires GraphIdentity.DistinctComponents(s) && GraphIdentity.DistinctComponents(t)
    requires forall c, d :: c in s && d in t ==> Label(c) != Label(d)
    ensures GraphIdentity.DistinctComponents(s + t)
  {
    var key := GraphIdentity.KeyOf();
    MapConcat(key, s, t);
    forall k | k in Map(key, s) ensures k !in Map(key, t) {
      var i :| 0 <= i < |s| && Map(key, s)[i] == k;
      forall j | 0 <= j < |t| ensures Map(key, t)[j] != k {
        assert s[i] in s && t[j] in t;
      }
    }
    NoDuplicatesConcat(Map(key, s), Map(key, t));
  }

  /** The children of a version, skills apart, have distinct keys. */
  lemma BundleDistinct(w: World, dir: Path)
    requires ValidHost(w.host)
    ensures GraphIdentity.DistinctComponents(BundleComponents(w, dir))
    ensures forall c :: c in BundleComponents(w, dir) ==> !c.Skill?
  {
    hide CommandsOf, AgentsOf, HooksOf, BundledServersOf, ValidHost, GraphIdentity.DistinctComponents;
    var commands: seq<Component>, agents: seq<Component> := CommandsOf(w, dir), AgentsOf(w, dir);
    var hooks: seq<Component>, servers: seq<Component> := HooksOf(w, dir), BundledServersOf(w, dir);
    ItemKeysDistinct(w, dir);
    KeyKeysDistinct(w, dir);
    assert "command" != "subagent" && "command" != "hook" && "subagent" != "hook";
    assert "mcp-server" != "command" && "mcp-server" != "subagent" && "mcp-server" != "hook";
    KindsApart(commands, agents);
    KindsApart(commands + agents, hooks);
    KindsApart(commands + agents + hooks, servers);
  }
}
