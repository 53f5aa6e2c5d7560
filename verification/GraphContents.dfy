/** What a built snapshot lists, field by field: a node for every declared entity and no others, and the
    bundling, tool and enablement edges between them. */
module GraphContents {
  import opened Ordering
  import opened InventoryTypes
  import opened GraphCollisions
  import opened InventoryGraph
  import opened GraphIdentity
  import opened GraphOrder
  import opened GraphProperties
  import opened GraphAdmission

  // ---------- who declares a component ----------

  predicate StandsAlone(input: Input, c: Component)
  {
    c in input.skills || c in input.commands || c in input.subagents || c in input.hooks || c in input.servers
  }

  predicate Bundled(p: Plugin, c: Component)
  {
    c in p.skills || c in p.commands || c in p.subagents || c in p.hooks || c in p.servers
  }

  /** The component is declared on its own, without an owner, or bundled by a plugin, whose node owns it. */
  ghost predicate Declared(g: Context, input: Input, c: Component, owner: string)
  {
    (owner == "" && StandsAlone(input, c)) || exists p :: p in input.plugins && Bundled(p, c) && owner == PluginId(g, p)
  }

  lemma ListsMean(input: Input, p: Plugin, c: Component)
    ensures c in Standalone(input) <==> StandsAlone(input, c)
    ensures c in Components(p) <==> Bundled(p, c)
  {
  }

  lemma {:induction false} PluginOwners(g: Context, plugins: seq<Plugin>, c: Component, owner: string)
    ensures (exists o :: o in PluginOwned(g, plugins) && o.component == c && o.owner == owner) <==>
      exists p :: p in plugins && c in Components(p) && owner == PluginId(g, p)
  {
    hide PluginId, Components, EnabledIn;
    if plugins != [] {
      var front, last := plugins[..|plugins| - 1], plugins[|plugins| - 1];
      assert plugins == front + [last];
      PluginOwners(g, front, c, owner);
      LastOwner(g, front, last, c, owner);
    }
  }

  lemma LastOwner(g: Context, front: seq<Plugin>, last: Plugin, c: Component, owner: string)
    ensures (exists o :: o in PluginOwned(g, front + [last]) && o.component == c && o.owner == owner) <==>
      || (exists o :: o in PluginOwned(g, front) && o.component == c && o.owner == owner)
      || (c in Components(last) && owner == PluginId(g, last))
  {
    hide PluginId, Components, EnabledIn;
    var plugins := front + [last];
    assert plugins[..|front|] == front;
    var inherits := EnabledIn(g, plugins, PluginId(g, last));
    var mine := Map(Own(PluginId(g, last), inherits), Components(last));
    assert PluginOwned(g, plugins) == PluginOwned(g, front) + mine;
    MapMember(Own(PluginId(g, last), inherits), Components(last), Owned(c, owner, inherits));
    forall o | o in mine ensures o.owner == PluginId(g, last) && o.component in Components(last) {
      MapMember(Own(PluginId(g, last), inherits), Components(last), o);
    }
  }

  lemma OwnersDeclared(g: Context, input: Input, c: Component, owner: string)
    ensures (exists o :: o in PartsOf(g, input).owned && o.component == c && o.owner == owner) <==>
      Declared(g, input, c, owner)
  {
    hide PluginId, Components, Standalone, PluginOwned, StandsAlone, Bundled;
    var alone := Map(Own("", true), Standalone(input));
    assert PartsOf(g, input).owned == alone + PluginOwned(g, input.plugins);
    PluginOwners(g, input.plugins, c, owner);
    forall p ensures c in Components(p) <==> Bundled(p, c) { ListsMean(input, p, c); }
    assert c in Standalone(input) <==> StandsAlone(input, c) by { StandaloneMeans(input, c); }
    MapMember(Own("", true), Standalone(input), Owned(c, "", true));
    forall o | o in alone ensures o.owner == "" && o.component in Standalone(input) {
      MapMember(Own("", true), Standalone(input), o);
    }
  }

  lemma StandaloneMeans(input: Input, c: Component)
    ensures c in Standalone(input) <==> StandsAlone(input, c)
  {
  }

  // ---------- nodes ----------

  predicate Shows(n: Node, kind: NodeKind, name: string, version: string, scope: string, path: string, cachedOnly: bool,
                  fingerprint: string)
  {
    && n.kind == kind && n.name == name && n.version == version && n.scope == scope && n.path == path
    && n.cachedOnly == cachedOnly && n.fingerprint == fingerprint
  }

  function KindShown(c: Component): NodeKind
  {
    if c.Skill? then SkillIdentity
    else if c.Command? then CustomCommandDefinition
    else if c.Subagent? then SubagentDefinition
    else if c.Hook? then HookDefinition
    else McpServerInstance
  }

  /** The node of a component: under its owner, with its kind and its own descriptors. */
  predicate ShowsComponent(g: Context, n: Node, c: Component, owner: string)
  {
    && n.id == ComponentId(g, c, owner)
    && Shows(n, KindShown(c), c.name, if c.Skill? then c.version else "", c.scope, c.path, false, c.fingerprint)
  }

  predicate ShowsTool(g: Context, n: Node, c: Component, owner: string, tool: string)
  {
    && n.id == NodeId(g, ["mcp-tool", ComponentId(g, c, owner), tool])
    && Shows(n, McpTool, tool, "", c.scope, "", false, g.hex(["mcp-tool-fp", ComponentId(g, c, owner), tool]))
  }

  predicate IsToolOf(g: Context, n: Node, c: Component, owner: string, tool: string)
  {
    c.McpServer? && tool in c.tools && ShowsTool(g, n, c, owner, tool)
  }

  /** A plugin that is only cached shows as an artifact of the cache, under the cache's scope. */
  predicate ShowsPlugin(g: Context, n: Node, p: Plugin)
  {
    && n.id == PluginId(g, p)
    && Shows(n, if p.cachedOnly then CacheArtifact else PluginPackage, p.name, p.version,
             if p.cachedOnly then "plugin_cache" else p.scope, p.path, p.cachedOnly, p.fingerprint)
  }

  predicate ShowsMarketplace(g: Context, n: Node, m: Marketplace)
  {
    && n.id == NodeId(g, ["marketplace", m.name, m.path])
    && Shows(n, CacheArtifact, m.name, "", "marketplace", m.path, false, m.fingerprint)
  }

  /** A marketplace known only because some plugin points at it. */
  predicate ShowsPointedAt(g: Context, n: Node, name: string)
  {
    && n.id == NodeId(g, ["marketplace", name])
    && Shows(n, CacheArtifact, name, "", "marketplace", "", false, g.hex(["marketplace-fp", name]))
  }

  predicate PointedAt(input: Input, name: string)
  {
    && name != "" && (exists p :: p in input.plugins && p.fromMarketplace == name)
    && forall m :: m in input.marketplaces ==> m.name != name
  }

  predicate ShowsInstallation(g: Context, n: Node)
  {
    && n.id == InstallationId(g)
    && Shows(n, AgentInstallation, "claude", "0.1.0", "user", "", false, g.hex(["installation-fp", g.installation]))
  }

  ghost predicate Listed(g: Context, input: Input, n: Node)
  {
    || ShowsInstallation(g, n)
    || (exists c, owner :: Declared(g, input, c, owner) && ShowsComponent(g, n, c, owner))
    || (exists c, owner, tool :: Declared(g, input, c, owner) && IsToolOf(g, n, c, owner, tool))
    || (exists p :: p in input.plugins && ShowsPlugin(g, n, p))
    || (exists m :: m in input.marketplaces && ShowsMarketplace(g, n, m))
    || (exists name :: PointedAt(input, name) && ShowsPointedAt(g, n, name))
  }

  lemma ComponentShown(g: Context, o: Owned, n: Node)
    ensures ComponentNode(g, o) == n <==> ShowsComponent(g, n, o.component, o.owner)
  {
    assert ComponentParts(g, o) == ComponentParts(g, Owned(o.component, o.owner, true));
  }

  lemma ToolShown(g: Context, o: Owned, tool: string, n: Node)
    ensures ToolNode(g, ComponentNode(g, o))(tool) == n <==> ShowsTool(g, n, o.component, o.owner, tool)
  {
    assert ComponentParts(g, o) == ComponentParts(g, Owned(o.component, o.owner, true));
  }

  lemma OthersShown(g: Context, n: Node)
    ensures InstallationNode(g) == n <==> ShowsInstallation(g, n)
    ensures forall p :: PluginNode(g)(p) == n <==> ShowsPlugin(g, n, p)
    ensures forall m :: MarketNode(g)(m) == n <==> ShowsMarketplace(g, n, m)
    ensures forall name :: MintedNode(g)(name) == n <==> ShowsPointedAt(g, n, name)
  {
  }

  lemma OriginListed(g: Context, input: Input, origin: Origin)
    requires Has(PartsOf(g, input), origin)
    ensures Listed(g, input, OriginNode(g, origin))
  {
    hide PartsOf, Declared, ShowsComponent, ShowsTool, ShowsPlugin, ShowsMarketplace, ShowsPointedAt, ShowsInstallation;
    hide ComponentNode, ToolNode, MarketNode, PluginNode, MintedNode, InstallationNode, Minted;
    var n := OriginNode(g, origin);
    MarketsOfParts(g, input);
    OthersShown(g, n);
    match origin {
      case FromComponent(o) =>
        OwnersDeclared(g, input, o.component, o.owner);
        ComponentShown(g, o, n);
      case FromTool(o, tool) =>
        OwnersDeclared(g, input, o.component, o.owner);
        ToolShown(g, o, tool, n);
        assert IsToolOf(g, n, o.component, o.owner, tool);
      case FromMinted(name) => MintedMember(input.marketplaces, input.plugins, name);
      case _ =>
    }
  }

  lemma ListedHasOrigin(g: Context, input: Input, n: Node) returns (origin: Origin)
    requires Listed(g, input, n)
    ensures Has(PartsOf(g, input), origin) && OriginNode(g, origin) == n
  {
    hide PartsOf, Declared, ShowsComponent, ShowsTool, ShowsPlugin, ShowsMarketplace, ShowsPointedAt, ShowsInstallation;
    hide ComponentNode, ToolNode, MarketNode, PluginNode, MintedNode, InstallationNode, Minted;
    MarketsOfParts(g, input);
    OthersShown(g, n);
    if ShowsInstallation(g, n) {
      origin := FromInstallation;
    } else if c, owner :| Declared(g, input, c, owner) && ShowsComponent(g, n, c, owner) {
      OwnersDeclared(g, input, c, owner);
      var o :| o in PartsOf(g, input).owned && o.component == c && o.owner == owner;
      ComponentShown(g, o, n);
      origin := FromComponent(o);
    } else if c, owner, tool :|
        Declared(g, input, c, owner) && IsToolOf(g, n, c, owner, tool) {
      OwnersDeclared(g, input, c, owner);
      var o :| o in PartsOf(g, input).owned && o.component == c && o.owner == owner;
      ToolShown(g, o, tool, n);
      origin := FromTool(o, tool);
    } else if p :| p in input.plugins && ShowsPlugin(g, n, p) {
      origin := FromPlugin(p);
    } else if m :| m in input.marketplaces && ShowsMarketplace(g, n, m) {
      origin := FromMarket(m);
    } else {
      var name :| PointedAt(input, name) && ShowsPointedAt(g, n, name);
      MintedMember(input.marketplaces, input.plugins, name);
      origin := FromMinted(name);
    }
  }

  /** A snapshot lists the installation, every declared component, every advertised tool, every plugin and
      marketplace, and the marketplaces only pointed at, each with its own fields; and nothing else. */
  lemma NodesListed(hex: Hex, input: Input, now: int, s: Snapshot, n: Node)
    requires IsSnapshot(hex, input, now, s)
    ensures n in s.nodes <==> Listed(Context(hex, input.installation), input, n)
  {
    hide NodeBag, EdgeBag, PartsOf, Listed, Has, OriginNode, FingerprintParts, Ordered;
    var g := Context(hex, input.installation);
    assert n in s.nodes <==> n in multiset(s.nodes);
    if n in s.nodes {
      var origin := NodeHasOrigin(g, PartsOf(g, input), n);
      OriginListed(g, input, origin);
    }
    if Listed(g, input, n) {
      var origin := ListedHasOrigin(g, input, n);
      OriginInBag(g, PartsOf(g, input), origin);
    }
  }

  // ---------- edges ----------

  /** An edge of a kind leads from one node to another. */
  ghost predicate Linked(edges: seq<Edge>, kind: EdgeKind, from: string, to: string)
  {
    exists e :: e in edges && e.kind == kind && e.from == from && e.to == to
  }

  predicate IsBundle(g: Context, p: Plugin, c: Component, from: string, to: string)
  {
    from == PluginId(g, p) && to == ComponentId(g, c, PluginId(g, p))
  }

  ghost predicate BundlesChild(g: Context, input: Input, from: string, to: string)
  {
    exists p, c :: p in input.plugins && Bundled(p, c) && IsBundle(g, p, c, from, to)
  }

  ghost predicate ProvidesTool(g: Context, input: Input, from: string, to: string)
  {
    exists c, owner, tool :: Declared(g, input, c, owner) && Advertises(g, c, owner, tool, from, to)
  }

  predicate Advertises(g: Context, c: Component, owner: string, tool: string, from: string, to: string)
  {
    && c.McpServer? && tool in c.tools
    && from == ComponentId(g, c, owner) && to == NodeId(g, ["mcp-tool", from, tool])
  }

  lemma OwnedIds(g: Context, o: Owned)
    ensures ComponentNode(g, o).id == ComponentId(g, o.component, o.owner)
    ensures var id := ComponentId(g, o.component, o.owner);
      forall tool :: ToolNode(g, ComponentNode(g, o))(tool).id == NodeId(g, ["mcp-tool", id, tool])
  {
    assert ComponentParts(g, o) == ComponentParts(g, Owned(o.component, o.owner, true));
  }

  /** A bundling or tool edge comes from a component. */
  lemma StructuralEdge(g: Context, input: Input, e: Edge) returns (o: Owned)
    requires e in EdgeBag(g, PartsOf(g, input)) && (e.kind == Bundles || e.kind == Provides)
    ensures o in PartsOf(g, input).owned && e in EdgesOf(g)(o)
  {
    hide EdgeBag, PlainEdgeBag, EdgesOf, PluginEdges, Collisions, CollisionMaker, Filed, Joint, PartsOf;
    var parts := PartsOf(g, input);
    if e in PlainEdgeBag(g, parts) {
      PlainEdgeOrigin(g, parts, e);
      if w :| w in parts.owned && e in EdgesOf(g)(w) {
        o := w;
      } else {
        var p :| p in parts.plugins && e in PluginEdges(g, parts.marketplaces)(p);
        PluginEdgeKinds(g, parts.marketplaces, p, e);
        assert false;
      }
    } else {
      var b := CollisionEdgeOrigin(g, parts, e);
      CollisionMember(CollisionMaker(g, b), Filed(g, b, parts), e);
      var x, y :| e == Joint(CollisionMaker(g, b), x, y);
      CollisionEdgeLabelled(g, b, x, y);
      assert false;
    }
  }

  lemma PluginEdgeKinds(g: Context, marketplaces: seq<Marketplace>, p: Plugin, e: Edge)
    requires e in PluginEdges(g, marketplaces)(p)
    ensures e.kind == EnabledFor || e.kind == ConfiguredIn
  {
    hide MarketFor, PluginId, InstallationId, LabelText;
  }

  lemma OwnedEdgeInBag(g: Context, parts: Parts, o: Owned, e: Edge)
    requires o in parts.owned && e in EdgesOf(g)(o)
    ensures e in EdgeBag(g, parts)
  {
    hide EdgesOf, BagSum;
    var i :| 0 <= i < |parts.owned| && parts.owned[i] == o;
    BagSumMember(EdgesOf(g), parts.owned, e);
  }

  lemma StructuralCases(g: Context, o: Owned, e: Edge)
    requires e in EdgesOf(g)(o)
    ensures var id := ComponentId(g, o.component, o.owner);
      && (e.kind == Bundles ==> o.owner != "" && e.from == o.owner && e.to == id)
      && (e.kind == Provides ==>
          o.component.McpServer? && e.from == id
          && exists tool :: tool in o.component.tools && e.to == NodeId(g, ["mcp-tool", id, tool]))
  {
    hide EdgesOf, ComponentNode, ToolNode, InstallationId, LabelText, ComponentId, NodeId;
    OwnedIds(g, o);
    ComponentEdgeCases(g, o, e);
  }

  lemma BundlesEdge(g: Context, o: Owned) returns (e: Edge)
    requires o.owner != ""
    ensures e in EdgesOf(g)(o) && e.kind == Bundles && e.from == o.owner && e.to == ComponentId(g, o.component, o.owner)
  {
    hide LabelText, ComponentNode, ToolNode, InstallationId, ComponentId;
    OwnedIds(g, o);
    e := MakeEdge(g, BundlesLabel, o.owner, ComponentNode(g, o).id);
  }

  lemma ToolEdge(g: Context, o: Owned, tool: string) returns (e: Edge)
    requires o.component.McpServer? && tool in o.component.tools
    ensures var id := ComponentId(g, o.component, o.owner);
      e in EdgesOf(g)(o) && e.kind == Provides && e.from == id && e.to == NodeId(g, ["mcp-tool", id, tool])
  {
    hide LabelText, ComponentNode, ToolNode, InstallationId, ComponentId, NodeId;
    OwnedIds(g, o);
    var node := ComponentNode(g, o);
    e := ProvidesEdge(g, node)(tool);
    MapBagMember(ProvidesEdge(g, node), Tools(o.component), e);
  }

  lemma EdgesOfBag(hex: Hex, input: Input, now: int, s: Snapshot)
    requires IsSnapshot(hex, input, now, s)
    ensures var g := Context(hex, input.installation);
      forall e :: e in s.edges <==> e in EdgeBag(g, PartsOf(g, input))
  {
    hide NodeBag, EdgeBag, PartsOf, FingerprintParts, Ordered;
    forall e ensures e in s.edges <==> e in multiset(s.edges) { }
  }

  /** A plugin is joined by a bundling edge to exactly the components it bundles. */
  lemma BundlesExactly(hex: Hex, input: Input, now: int, s: Snapshot, from: string, to: string)
    requires IsSnapshot(hex, input, now, s)
    ensures Linked(s.edges, Bundles, from, to) <==> BundlesChild(Context(hex, input.installation), input, from, to)
  {
    hide NodeBag, EdgeBag, PartsOf, IsSnapshot, EdgesOf, ComponentId, Bundled, PluginId, StandsAlone;
    var g := Context(hex, input.installation);
    EdgesOfBag(hex, input, now, s);
    if Linked(s.edges, Bundles, from, to) {
      var e :| e in s.edges && e.kind == Bundles && e.from == from && e.to == to;
      var o := StructuralEdge(g, input, e);
      StructuralCases(g, o, e);
      OwnersDeclared(g, input, o.component, o.owner);
    }
    if p, c :| p in input.plugins && Bundled(p, c) && IsBundle(g, p, c, from, to) {
      PluginIdNonEmpty(g, p);
      OwnersDeclared(g, input, c, PluginId(g, p));
      var o :| o in PartsOf(g, input).owned && o.component == c && o.owner == PluginId(g, p);
      var e := BundlesEdge(g, o);
      OwnedEdgeInBag(g, PartsOf(g, input), o, e);
    }
  }

  /** A server is joined to exactly the tools it advertises. */
  lemma ProvidesExactly(hex: Hex, input: Input, now: int, s: Snapshot, from: string, to: string)
    requires IsSnapshot(hex, input, now, s)
    ensures Linked(s.edges, Provides, from, to) <==> ProvidesTool(Context(hex, input.installation), input, from, to)
  {
    hide NodeBag, EdgeBag, PartsOf, IsSnapshot, EdgesOf, ComponentId, Declared, NodeId;
    var g := Context(hex, input.installation);
    EdgesOfBag(hex, input, now, s);
    if Linked(s.edges, Provides, from, to) {
      var e :| e in s.edges && e.kind == Provides && e.from == from && e.to == to;
      var o := StructuralEdge(g, input, e);
      StructuralCases(g, o, e);
      OwnersDeclared(g, input, o.component, o.owner);
      var tool :| tool in o.component.tools && to == NodeId(g, ["mcp-tool", from, tool]);
      assert Advertises(g, o.component, o.owner, tool, from, to);
    }
    if c, owner, tool :| Declared(g, input, c, owner) && Advertises(g, c, owner, tool, from, to) {
      OwnersDeclared(g, input, c, owner);
      var o :| o in PartsOf(g, input).owned && o.component == c && o.owner == owner;
      var e := ToolEdge(g, o, tool);
      OwnedEdgeInBag(g, PartsOf(g, input), o, e);
    }
  }

  // ---------- enablement ----------

  /** A skill must not be disabled, a hook must be trusted, and everything must be enabled. */
  predicate Allows(c: Component)
  {
    match c
    case Skill(_, _, _, enabled, disabled, _, _) => enabled && !disabled
    case Command(_, _, enabled, _, _) => enabled
    case Subagent(_, _, enabled, _, _) => enabled
    case Hook(_, _, enabled, trusted, _, _) => enabled && trusted
    case McpServer(_, _, enabled, _, _, _) => enabled
  }

  /** Something is joined to the installation by an enablement edge exactly when it is wired in: a
      component by its own flags, under an owner only if that plugin is not just cached and is active for
      something; a plugin by the latter alone. */
  lemma EnabledExactly(hex: Hex, input: Input, now: int, s: Snapshot)
    requires Injective(hex) && DistinctKeys(input) && IsSnapshot(hex, input, now, s)
    ensures var g := Context(hex, input.installation);
      var installation := InstallationId(g);
      && (forall c :: StandsAlone(input, c) ==>
            (Linked(s.edges, EnabledFor, ComponentId(g, c, ""), installation) <==> Allows(c)))
      && (forall p, c :: p in input.plugins && Bundled(p, c) ==>
            (Linked(s.edges, EnabledFor, ComponentId(g, c, PluginId(g, p)), installation) <==>
             !p.cachedOnly && p.activeFor != "" && Allows(c)))
      && (forall p :: p in input.plugins ==>
            (Linked(s.edges, EnabledFor, PluginId(g, p), installation) <==> !p.cachedOnly && p.activeFor != ""))
  {
    hide DistinctComponents, DistinctPlugins, IsSnapshot, HasEnablement, ComponentId, Standalone, Components;
    var g := Context(hex, input.installation);
    EnablementIsInherited(hex, input, now, s);
    forall id ensures Linked(s.edges, EnabledFor, id, InstallationId(g)) <==> HasEnablement(s.edges, id) {
      EnablementIsToInstallation(hex, input, now, s, id);
    }
    forall c ensures c in Standalone(input) <==> StandsAlone(input, c) { StandaloneMeans(input, c); }
    forall p, c ensures c in Components(p) <==> Bundled(p, c) { ListsMean(input, p, c); }
    forall c ensures OwnFlags(c) <==> Allows(c) { }
  }

  lemma EnablementIsToInstallation(hex: Hex, input: Input, now: int, s: Snapshot, id: string)
    requires IsSnapshot(hex, input, now, s)
    ensures var g := Context(hex, input.installation);
      Linked(s.edges, EnabledFor, id, InstallationId(g)) <==> HasEnablement(s.edges, id)
  {
    hide NodeBag, EdgeBag, PartsOf, IsSnapshot;
    var g := Context(hex, input.installation);
    EdgesOfBag(hex, input, now, s);
    forall e | e in s.edges && e.kind == EnabledFor ensures e.to == InstallationId(g) {
      EnablementOrigin(g, PartsOf(g, input), e);
    }
  }

  // ---------- collisions ----------

  function KindOfBucket(b: Bucket): NodeKind
  {
    match b
    case SkillBucket => SkillIdentity
    case CommandBucket => CustomCommandDefinition
    case SubagentBucket => SubagentDefinition
    case HookBucket => HookDefinition
    case McpBucket => McpServerInstance
    case _ => CacheArtifact
  }

  predicate SortedUnder(g: Context, b: Bucket, c: Component, owner: string, id: string, name: string)
  {
    KindShown(c) == KindOfBucket(b) && c.name == name && id == ComponentId(g, c, owner)
  }

  /** Something of the bucket's sort is declared under the name and shows under the id. */
  ghost predicate Named(g: Context, input: Input, b: Bucket, id: string, name: string)
  {
    match b
    case PluginBucket => exists p :: p in input.plugins && p.name == name && id == PluginId(g, p)
    case MarketplaceBucket =>
      || (exists m :: m in input.marketplaces && m.name == name && id == NodeId(g, ["marketplace", m.name, m.path]))
      || (PointedAt(input, name) && id == NodeId(g, ["marketplace", name]))
    case _ =>
      exists c, owner ::
        Declared(g, input, c, owner) && SortedUnder(g, b, c, owner, id, name)
  }

  lemma {:induction false} FiledComponentsHold(g: Context, b: Bucket, owned: seq<Owned>, o: Owned)
    requires o in owned && BucketOf(o.component) == b
    ensures ComponentNode(g, o) in FiledComponents(g, b, owned)
  {
    hide ComponentNode;
    var k := |owned| - 1;
    assert owned == owned[..k] + [owned[k]];
    if o in owned[..k] { FiledComponentsHold(g, b, owned[..k], o); }
  }

  lemma {:induction false} FiledComponentsOfBucket(g: Context, b: Bucket, owned: seq<Owned>, n: Node) returns (o: Owned)
    requires n in FiledComponents(g, b, owned)
    ensures o in owned && ComponentNode(g, o) == n && BucketOf(o.component) == b
  {
    hide ComponentNode;
    var k := |owned| - 1;
    if n in FiledComponents(g, b, owned[..k]) {
      o := FiledComponentsOfBucket(g, b, owned[..k], n);
    } else {
      o := owned[k];
    }
  }

  ghost predicate FiledAs(nodes: seq<Node>, id: string, name: string)
  {
    exists n :: n in nodes && n.id == id && n.name == name
  }

  lemma FiledMeans(g: Context, input: Input, b: Bucket, id: string, name: string)
    ensures FiledAs(Filed(g, b, PartsOf(g, input)), id, name) <==> Named(g, input, b, id, name)
  {
    match b {
      case PluginBucket => FiledPlugins(g, input, id, name);
      case MarketplaceBucket => FiledMarkets(g, input, id, name);
      case _ => FiledByKind(g, input, b, id, name);
    }
  }

  lemma FiledPlugins(g: Context, input: Input, id: string, name: string)
    ensures FiledAs(Filed(g, PluginBucket, PartsOf(g, input)), id, name) <==> Named(g, input, PluginBucket, id, name)
  {
    hide PluginId, PluginOwned, Standalone;
    var nodes := Map(PluginNode(g), input.plugins);
    if n :| n in nodes && n.id == id && n.name == name { MapMember(PluginNode(g), input.plugins, n); }
    if p :| p in input.plugins && p.name == name && id == PluginId(g, p) {
      MapMember(PluginNode(g), input.plugins, PluginNode(g)(p));
    }
  }

  lemma FiledMarkets(g: Context, input: Input, id: string, name: string)
    ensures FiledAs(Filed(g, MarketplaceBucket, PartsOf(g, input)), id, name) <==>
      Named(g, input, MarketplaceBucket, id, name)
  {
    hide Minted, PluginOwned, Standalone, NodeId;
    var markets, names := input.marketplaces, Minted(input.marketplaces, input.plugins);
    MintedMember(markets, input.plugins, name);
    assert Filed(g, MarketplaceBucket, PartsOf(g, input)) == Map(MarketNode(g), markets) + Map(MintedNode(g), names);
    forall n ensures n in Map(MarketNode(g), markets) <==> exists m :: m in markets && MarketNode(g)(m) == n {
      MapMember(MarketNode(g), markets, n);
    }
    forall n ensures n in Map(MintedNode(g), names) <==> exists m :: m in names && MintedNode(g)(m) == n {
      MapMember(MintedNode(g), names, n);
    }
    if m :| m in markets && m.name == name && id == NodeId(g, ["marketplace", m.name, m.path]) {
      var n := MarketNode(g)(m);
      assert n in Map(MarketNode(g), markets) && n.id == id && n.name == name;
    }
    if PointedAt(input, name) && id == NodeId(g, ["marketplace", name]) {
      var n := MintedNode(g)(name);
      assert n in Map(MintedNode(g), names) && n.id == id && n.name == name;
    }
  }

  lemma FiledByKind(g: Context, input: Input, b: Bucket, id: string, name: string)
    requires b != PluginBucket && b != MarketplaceBucket
    ensures FiledAs(Filed(g, b, PartsOf(g, input)), id, name) <==> Named(g, input, b, id, name)
  {
    hide PartsOf, FiledComponents, Declared, ComponentId, ComponentNode;
    var owned := PartsOf(g, input).owned;
    forall c: Component ensures BucketOf(c) == b <==> KindShown(c) == KindOfBucket(b) { }
    if n :| n in FiledComponents(g, b, owned) && n.id == id && n.name == name {
      var o := FiledComponentsOfBucket(g, b, owned, n);
      OwnersDeclared(g, input, o.component, o.owner);
      OwnedIds(g, o);
      NodeName(g, o);
    }
    if c, owner :| Declared(g, input, c, owner) && SortedUnder(g, b, c, owner, id, name) {
      OwnersDeclared(g, input, c, owner);
      var o :| o in owned && o.component == c && o.owner == owner;
      FiledComponentsHold(g, b, owned, o);
      OwnedIds(g, o);
      NodeName(g, o);
    }
  }

  lemma NodeName(g: Context, o: Owned)
    ensures ComponentNode(g, o).name == o.component.name
  {
  }

  ghost predicate NamedAlike(g: Context, input: Input, from: string, to: string)
  {
    exists b, name :: Named(g, input, b, from, name) && Named(g, input, b, to, name)
  }

  lemma CollideMeans(g: Context, input: Input, b: Bucket, from: string, to: string)
    ensures Collide(Filed(g, b, PartsOf(g, input)), from, to) <==>
      exists name :: Named(g, input, b, from, name) && Named(g, input, b, to, name)
  {
    hide Filed, PartsOf, Named;
    var nodes := Filed(g, b, PartsOf(g, input));
    forall id, name
      ensures FiledAs(nodes, id, name) <==> Named(g, input, b, id, name)
    {
      FiledMeans(g, input, b, id, name);
    }
    if Collide(nodes, from, to) {
      var x, y :| x in nodes && y in nodes && x.id == from && y.id == to && x.name == y.name;
      assert FiledAs(nodes, from, x.name) && FiledAs(nodes, to, x.name);
    }
    if name :| Named(g, input, b, from, name) && Named(g, input, b, to, name) {
      assert FiledAs(nodes, from, name) && FiledAs(nodes, to, name);
    }
  }

  /** Two different ids are joined by a collision edge, from the smaller to the larger, exactly when two
      things of one sort are declared under one name and show under them. */
  lemma CollidesExactly(hex: Hex, input: Input, now: int, s: Snapshot, from: string, to: string)
    requires Injective(hex) && DistinctKeys(input) && IsSnapshot(hex, input, now, s)
    ensures Linked(s.edges, CollidesWith, from, to) <==>
      from != to && StringLeq(from, to) && NamedAlike(Context(hex, input.installation), input, from, to)
  {
    hide PartsOf, DistinctKeys, IsSnapshot, Filed, Named, Collide, MakeEdge;
    var g := Context(hex, input.installation);
    forall b ensures multiset(s.edges)[MakeEdge(g, CollisionLabel(b), from, to)] > 0 <==>
        from != to && StringLeq(from, to)
        && exists name :: Named(g, input, b, from, name) && Named(g, input, b, to, name)
    {
      SnapshotCollisions(hex, input, now, s, b, from, to);
      CollideMeans(g, input, b, from, to);
    }
    if Linked(s.edges, CollidesWith, from, to) {
      var e :| e in s.edges && e.kind == CollidesWith && e.from == from && e.to == to;
      var b := CollisionBucket(hex, input, now, s, e);
      assert e in multiset(s.edges);
    }
    if from != to && StringLeq(from, to) && NamedAlike(g, input, from, to) {
      var b, name :| Named(g, input, b, from, name) && Named(g, input, b, to, name);
      var e := MakeEdge(g, CollisionLabel(b), from, to);
      assert multiset(s.edges)[e] > 0;
      CollisionShape(g, b, from, to);
      assert e in s.edges;
    }
  }

  lemma CollisionShape(g: Context, b: Bucket, from: string, to: string)
    ensures var e := MakeEdge(g, CollisionLabel(b), from, to); e.kind == CollidesWith && e.from == from && e.to == to
  {
  }

  lemma CollisionBucket(hex: Hex, input: Input, now: int, s: Snapshot, e: Edge) returns (b: Bucket)
    requires IsSnapshot(hex, input, now, s) && e in s.edges && e.kind == CollidesWith
    ensures e == MakeEdge(Context(hex, input.installation), CollisionLabel(b), e.from, e.to)
  {
    hide PlainEdgeBag, EdgeBag, PartsOf, IsSnapshot, Filed, MakeEdge, Joint, Collisions, CollisionMaker;
    var g := Context(hex, input.installation);
    var parts := PartsOf(g, input);
    EdgesOfBag(hex, input, now, s);
    PlainIsNoCollision(g, parts, e);
    b := CollisionEdgeOrigin(g, parts, e);
    CollisionMember(CollisionMaker(g, b), Filed(g, b, parts), e);
    var x, y :| e == Joint(CollisionMaker(g, b), x, y);
    CollisionEdgeLabelled(g, b, x, y);
    CollisionShape(g, b, x.id, y.id);
    CollisionShape(g, b, y.id, x.id);
  }

  // ---------- what ids tell apart ----------

  predicate SameComponent(c: Component, d: Component)
  {
    KindShown(c) == KindShown(d) && c.name == d.name && c.scope == d.scope && c.path == d.path
  }

  predicate SamePlugin(p: Plugin, q: Plugin)
  {
    && p.name == q.name && p.path == q.path
    && (if p.cachedOnly then "plugin_cache" else p.scope) == (if q.cachedOnly then "plugin_cache" else q.scope)
  }

  lemma SameKindSameLabel(c: Component, d: Component)
    ensures Label(c) == Label(d) <==> KindShown(c) == KindShown(d)
  {
    assert "skill"[1] == 'k' && "command"[1] == 'o' && "subagent"[1] == 'u' && "hook"[1] == 'o'
      && "mcp-server"[1] == 'c';
    assert |"command"| != |"hook"|;
  }

  /** Ids of two installations, or of one: components share one exactly when they are of one sort with one
      name, scope, path and owner; plugins when they share name, scope and path; and nothing is shared
      between installations. */
  lemma IdsTell(hex: Hex, here: string, there: string, c: Component, owner: string, d: Component, other: string,
                p: Plugin, q: Plugin)
    requires Injective(hex)
    ensures var g, h := Context(hex, here), Context(hex, there);
      && (ComponentId(g, c, owner) == ComponentId(h, d, other) <==>
          here == there && owner == other && SameComponent(c, d))
      && (PluginId(g, p) == PluginId(h, q) <==> here == there && SamePlugin(p, q))
      && (InstallationId(g) == InstallationId(h) <==> here == there)
  {
    hide Label, KindShown;
    var g, h := Context(hex, here), Context(hex, there);
    SameKindSameLabel(c, d);
    var a, b := ComponentParts(g, Owned(c, owner, true)), ComponentParts(h, Owned(d, other, true));
    assert a == b <==> a[0] == b[0] && a[1] == b[1] && a[2] == b[2] && a[3] == b[3] && a[4] == b[4] && a[5] == b[5];
    NodeIdsAcross(hex, here, there, a, b);
    var x, y := PluginParts(g, p), PluginParts(h, q);
    assert x == y <==> x[1] == y[1] && x[2] == y[2] && x[3] == y[3] && x[4] == y[4];
    NodeIdsAcross(hex, here, there, x, y);
    var m, n := ["installation", here], ["installation", there];
    assert m == n <==> m[1] == n[1];
    NodeIdsAcross(hex, here, there, m, n);
  }

  lemma NodeIdsAcross(hex: Hex, here: string, there: string, a: seq<string>, b: seq<string>)
    requires Injective(hex)
    ensures NodeId(Context(hex, here), a) == NodeId(Context(hex, there), b) <==> a == b
  {
    assert NodeId(Context(hex, here), a)[5..] == hex(a) && NodeId(Context(hex, there), b)[5..] == hex(b);
  }

  // ---------- is there anything at all ----------

  ghost predicate DeclaresNothing(input: Input)
  {
    && input.plugins == [] && input.marketplaces == []
    && forall c :: !StandsAlone(input, c)
  }

  /** A snapshot has a node besides the installation's exactly when something is declared. */
  lemma ComponentsShown(hex: Hex, input: Input, now: int, s: Snapshot)
    requires IsSnapshot(hex, input, now, s)
    ensures (exists n :: n in s.nodes && n.kind != AgentInstallation) <==> !DeclaresNothing(input)
    ensures HasComponent(s.nodes) <==> !DeclaresNothing(input)
  {
    hide IsSnapshot, ShowsTool;
    var g := Context(hex, input.installation);
    forall n ensures n in s.nodes <==> Listed(g, input, n) { NodesListed(hex, input, now, s, n); }
    if c :| StandsAlone(input, c) {
      var n := ComponentNode(g, Owned(c, "", true));
      ComponentShown(g, Owned(c, "", true), n);
      assert Declared(g, input, c, "");
      assert n in s.nodes && n.kind != AgentInstallation;
    }
    if input.plugins != [] {
      var n := PluginNode(g)(input.plugins[0]);
      assert ShowsPlugin(g, n, input.plugins[0]);
      assert n in s.nodes && n.kind != AgentInstallation;
    }
    if input.marketplaces != [] {
      var n := MarketNode(g)(input.marketplaces[0]);
      assert ShowsMarketplace(g, n, input.marketplaces[0]);
      assert n in s.nodes && n.kind != AgentInstallation;
    }
    if DeclaresNothing(input) {
      forall n | n in s.nodes ensures n.kind == AgentInstallation {
        NothingElseListed(g, input, n);
      }
    }
  }

  lemma NothingElseListed(g: Context, input: Input, n: Node)
    requires DeclaresNothing(input) && Listed(g, input, n)
    ensures n.kind == AgentInstallation
  {
  }

  // ---------- order ----------

  /** Nodes and edges are listed in the byte order of their ids. */
  lemma ListsAreSorted(hex: Hex, input: Input, now: int, s: Snapshot)
    requires IsSnapshot(hex, input, now, s)
    ensures forall i, j :: 0 <= i < j < |s.nodes| ==> StringLeq(s.nodes[i].id, s.nodes[j].id)
    ensures forall i, j :: 0 <= i < j < |s.edges| ==> StringLeq(s.edges[i].id, s.edges[j].id)
  {
    hide NodeBag, EdgeBag, PartsOf, FingerprintParts;
    forall i, j | 0 <= i < j < |s.nodes|
      ensures StringLeq(s.nodes[i].id, s.nodes[j].id)
    {
      assert NodeLeq(s.nodes[i], s.nodes[j]);
    }
    forall i, j | 0 <= i < j < |s.edges|
      ensures StringLeq(s.edges[i].id, s.edges[j].id)
    {
      assert EdgeLeq(s.edges[i], s.edges[j]);
    }
  }
}
