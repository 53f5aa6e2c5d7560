/** Node and edge identity in the built graph: with injective digests and distinct descriptor
    keys, an id determines its node, and always determines its edge. */
module GraphIdentity {
  import opened Ordering
  import opened InventoryTypes
  import opened GraphCollisions
  import opened InventoryGraph

  // ---------- descriptor keys ----------

  datatype ComponentKey = ComponentKey(tag: string, name: string, scope: string, path: string)
  datatype PluginKey = PluginKey(name: string, scope: string, path: string)
  datatype MarketKey = MarketKey(name: string, path: string)

  function KeyOf(): Component -> ComponentKey
  {
    (c: Component) => ComponentKey(Label(c), c.name, c.scope, c.path)
  }

  function PluginKeyOf(): Plugin -> PluginKey
  {
    (p: Plugin) => PluginKey(p.name, PluginScope(p), p.path)
  }

  function MarketKeyOf(): Marketplace -> MarketKey
  {
    (m: Marketplace) => MarketKey(m.name, m.path)
  }

  ghost predicate DistinctComponents(cs: seq<Component>)
  {
    NoDuplicates(Map(KeyOf(), cs))
  }

  ghost predicate DistinctPlugins(plugins: seq<Plugin>)
  {
    NoDuplicates(Map(PluginKeyOf(), plugins))
  }

  ghost predicate DistinctMarketplaces(marketplaces: seq<Marketplace>)
  {
    NoDuplicates(Map(MarketKeyOf(), marketplaces))
  }

  /** No two descriptors of one list share a key. */
  ghost predicate DistinctKeys(input: Input)
  {
    && DistinctComponents(Standalone(input))
    && (forall p :: p in input.plugins ==> DistinctComponents(Components(p)))
    && DistinctPlugins(input.plugins)
    && DistinctMarketplaces(input.marketplaces)
  }

  lemma SameKeySameElement<A, K>(key: A -> K, s: seq<A>, x: A, y: A)
    requires NoDuplicates(Map(key, s)) && x in s && y in s && key(x) == key(y)
    ensures x == y
  {
    var i :| 0 <= i < |s| && s[i] == x;
    var j :| 0 <= j < |s| && s[j] == y;
    assert Map(key, s)[i] == Map(key, s)[j];
  }

  // ---------- ids ----------

  lemma NodeIdInjective(g: Context, a: seq<string>, b: seq<string>)
    requires Injective(g.hex) && NodeId(g, a) == NodeId(g, b)
    ensures a == b
  {
    assert NodeId(g, a)[5..] == g.hex(a) && NodeId(g, b)[5..] == g.hex(b);
  }

  lemma PluginIdsDiffer(g: Context, plugins: seq<Plugin>, p: Plugin, q: Plugin)
    requires Injective(g.hex) && DistinctPlugins(plugins) && p in plugins && q in plugins
    requires PluginId(g, p) == PluginId(g, q)
    ensures p == q
  {
    var a, b := PluginParts(g, p), PluginParts(g, q);
    NodeIdInjective(g, a, b);
    assert a[2] == b[2] && a[3] == b[3] && a[4] == b[4];
    SameKeySameElement(PluginKeyOf(), plugins, p, q);
  }

  lemma PluginIdNonEmpty(g: Context, p: Plugin)
    ensures PluginId(g, p) != ""
  {
    assert |PluginId(g, p)| >= 5;
  }

  /** Two different nodes of two different sorts never share an id: the label or the number of
      parts tells them apart. */
  datatype Origin =
    | FromInstallation
    | FromComponent(owned: Owned)
    | FromTool(server: Owned, tool: string)
    | FromMarket(market: Marketplace)
    | FromPlugin(plugin: Plugin)
    | FromMinted(name: string)

  function OriginParts(g: Context, origin: Origin): seq<string>
  {
    match origin
    case FromInstallation => ["installation", g.installation]
    case FromComponent(o) => ComponentParts(g, o)
    case FromTool(o, tool) => ["mcp-tool", NodeId(g, ComponentParts(g, o)), tool]
    case FromMarket(m) => ["marketplace", m.name, m.path]
    case FromPlugin(p) => PluginParts(g, p)
    case FromMinted(name) => ["marketplace", name]
  }

  function OriginNode(g: Context, origin: Origin): Node
  {
    match origin
    case FromInstallation => InstallationNode(g)
    case FromComponent(o) => ComponentNode(g, o)
    case FromTool(o, tool) => ToolNode(g, ComponentNode(g, o))(tool)
    case FromMarket(m) => MarketNode(g)(m)
    case FromPlugin(p) => PluginNode(g)(p)
    case FromMinted(name) => MintedNode(g)(name)
  }

  lemma OriginId(g: Context, origin: Origin)
    ensures OriginNode(g, origin).id == NodeId(g, OriginParts(g, origin))
  {
    match origin
    case FromTool(o, tool) => assert ComponentNode(g, o).id == NodeId(g, ComponentParts(g, o));
    case _ =>
  }

  ghost predicate Has(parts: Parts, origin: Origin)
  {
    match origin
    case FromInstallation => true
    case FromComponent(o) => o in parts.owned
    case FromTool(o, tool) => o in parts.owned && tool in Tools(o.component)
    case FromMarket(m) => m in parts.marketplaces
    case FromPlugin(p) => p in parts.plugins
    case FromMinted(name) => name in Minted(parts.marketplaces, parts.plugins)
  }

  lemma PartsTellOriginsApart(g: Context, a: Origin, b: Origin)
    requires OriginParts(g, a) == OriginParts(g, b)
    ensures match a {
      case FromInstallation => b.FromInstallation?
      case FromComponent(o) => b.FromComponent?
      case FromTool(_, _) => b.FromTool?
      case FromMarket(_) => b.FromMarket?
      case FromPlugin(_) => b.FromPlugin?
      case FromMinted(_) => b.FromMinted?
    }
  {
    var p, q := OriginParts(g, a), OriginParts(g, b);
    assert |p| == |q| && p[0] == q[0];
    assert "mcp-tool"[1] != "marketplace"[1] && "installation"[0] != "marketplace"[0];
  }

  lemma ComponentPartsKey(g: Context, o: Owned, w: Owned)
    requires ComponentParts(g, o) == ComponentParts(g, w)
    ensures KeyOf()(o.component) == KeyOf()(w.component) && o.owner == w.owner
  {
    var a, b := ComponentParts(g, o), ComponentParts(g, w);
    assert a[0] == b[0] && a[2] == b[2] && a[3] == b[3] && a[4] == b[4] && a[5] == b[5];
  }

  // ---------- owned components ----------

  /** A plugin's component inherits exactly when its own plugin is active. */
  lemma {:induction false} PluginOwnedMember(g: Context, plugins: seq<Plugin>, o: Owned)
    requires Injective(g.hex) && DistinctPlugins(plugins)
    ensures o in PluginOwned(g, plugins) <==>
      exists p :: p in plugins && OwnedByPlugin(g, p, o)
  {
    hide PluginId, Components;
    if plugins != [] {
      var front, p := plugins[..|plugins| - 1], plugins[|plugins| - 1];
      assert plugins == front + [p];
      DistinctPluginsFront(front, p);
      PluginOwnedMember(g, front, o);
      OwnEnablement(g, plugins, p);
      MapMember(Own(PluginId(g, p), Active(p)), Components(p), o);
      assert PluginOwned(g, plugins) == PluginOwned(g, front) + Map(Own(PluginId(g, p), Active(p)), Components(p));
    }
  }

  lemma DistinctPluginsFront(front: seq<Plugin>, p: Plugin)
    requires DistinctPlugins(front + [p])
    ensures DistinctPlugins(front)
  {
    var all := Map(PluginKeyOf(), front + [p]);
    assert forall i :: 0 <= i < |front| ==> Map(PluginKeyOf(), front)[i] == all[i];
  }

  lemma OwnEnablement(g: Context, plugins: seq<Plugin>, p: Plugin)
    requires Injective(g.hex) && DistinctPlugins(plugins) && p in plugins
    ensures EnabledIn(g, plugins, PluginId(g, p)) == Active(p)
  {
    hide PluginId;
    if EnabledIn(g, plugins, PluginId(g, p)) {
      var q :| q in plugins && Active(q) && PluginId(g, q) == PluginId(g, p);
      PluginIdsDiffer(g, plugins, p, q);
    }
  }

  lemma MapMember<A, B>(f: A -> B, s: seq<A>, y: B)
    ensures y in Map(f, s) <==> exists x :: x in s && f(x) == y
  {
    if y in Map(f, s) {
      var i :| 0 <= i < |s| && Map(f, s)[i] == y;
      assert s[i] in s;
    }
    if exists x :: x in s && f(x) == y {
      var x :| x in s && f(x) == y;
      var i :| 0 <= i < |s| && s[i] == x;
      assert Map(f, s)[i] == y;
    }
  }

  /** The plugin bundles the component and passes its activity on to it. */
  predicate OwnedByPlugin(g: Context, p: Plugin, o: Owned)
  {
    o.component in Components(p) && o.owner == PluginId(g, p) && o.inherits == Active(p)
  }

  /** Who can own a component of the input. */
  ghost predicate OwnedBy(g: Context, input: Input, o: Owned)
  {
    || (o.owner == "" && o.inherits && o.component in Standalone(input))
    || exists p :: p in input.plugins && OwnedByPlugin(g, p, o)
  }

  lemma OwnedMember(g: Context, input: Input, o: Owned)
    requires Injective(g.hex) && DistinctPlugins(input.plugins)
    ensures o in PartsOf(g, input).owned <==> OwnedBy(g, input, o)
  {
    hide PluginId, Components, Standalone;
    PluginOwnedMember(g, input.plugins, o);
    MapMember(Own("", true), Standalone(input), o);
  }

  lemma SameOwned(g: Context, input: Input, o: Owned, w: Owned)
    requires Injective(g.hex) && DistinctKeys(input)
    requires OwnedBy(g, input, o) && OwnedBy(g, input, w)
    requires o.owner == w.owner && KeyOf()(o.component) == KeyOf()(w.component)
    ensures o == w
  {
    hide PluginId, Components, Standalone, KeyOf;
    forall p: Plugin ensures PluginId(g, p) != "" { PluginIdNonEmpty(g, p); }
    if o.owner == "" {
      SameKeySameElement(KeyOf(), Standalone(input), o.component, w.component);
    } else {
      var p :| p in input.plugins && OwnedByPlugin(g, p, o);
      var q :| q in input.plugins && OwnedByPlugin(g, q, w);
      PluginIdsDiffer(g, input.plugins, p, q);
      SameKeySameElement(KeyOf(), Components(p), o.component, w.component);
    }
  }

  /** Under distinct keys an id belongs to one node. */
  lemma SameIdSameNode(g: Context, input: Input, a: Origin, b: Origin)
    requires Injective(g.hex) && DistinctKeys(input)
    requires Has(PartsOf(g, input), a) && Has(PartsOf(g, input), b)
    requires OriginNode(g, a).id == OriginNode(g, b).id
    ensures OriginNode(g, a) == OriginNode(g, b)
  {
    hide ComponentNode, ToolNode, MarketNode, PluginNode, MintedNode, ComponentParts, PluginParts, Minted;
    hide DistinctComponents;
    OriginId(g, a);
    OriginId(g, b);
    NodeIdInjective(g, OriginParts(g, a), OriginParts(g, b));
    PartsTellOriginsApart(g, a, b);
    SameOrigin(g, input, a, b);
  }

  lemma SameOrigin(g: Context, input: Input, a: Origin, b: Origin)
    requires Injective(g.hex) && DistinctKeys(input)
    requires Has(PartsOf(g, input), a) && Has(PartsOf(g, input), b)
    requires OriginParts(g, a) == OriginParts(g, b)
    requires a.FromInstallation? == b.FromInstallation?
    requires a.FromComponent? == b.FromComponent? && a.FromTool? == b.FromTool?
    requires a.FromMarket? == b.FromMarket? && a.FromPlugin? == b.FromPlugin? && a.FromMinted? == b.FromMinted?
    ensures a == b
  {
    hide PartsOf, Minted, DistinctComponents, NodeId;
    var p, q := OriginParts(g, a), OriginParts(g, b);
    match a {
      case FromInstallation =>
      case FromComponent(o) => SameOwnedParts(g, input, o, b.owned);
      case FromTool(o, tool) =>
        assert p[1] == q[1] && p[2] == q[2];
        NodeIdInjective(g, ComponentParts(g, o), ComponentParts(g, b.server));
        SameOwnedParts(g, input, o, b.server);
      case FromMarket(m) =>
        assert p[1] == q[1] && p[2] == q[2];
        MarketsOfParts(g, input);
        SameKeySameElement(MarketKeyOf(), input.marketplaces, m, b.market);
      case FromPlugin(x) =>
        MarketsOfParts(g, input);
        PluginIdsDiffer(g, input.plugins, x, b.plugin);
      case FromMinted(name) => assert p[1] == q[1];
    }
  }

  lemma MarketsOfParts(g: Context, input: Input)
    ensures PartsOf(g, input).marketplaces == input.marketplaces && PartsOf(g, input).plugins == input.plugins
  {
  }

  lemma SameOwnedParts(g: Context, input: Input, o: Owned, w: Owned)
    requires Injective(g.hex) && DistinctKeys(input)
    requires o in PartsOf(g, input).owned && w in PartsOf(g, input).owned
    requires ComponentParts(g, o) == ComponentParts(g, w)
    ensures o == w
  {
    hide PartsOf, ComponentParts, KeyOf, DistinctComponents, OwnedBy;
    ComponentPartsKey(g, o, w);
    OwnedMember(g, input, o);
    OwnedMember(g, input, w);
    SameOwned(g, input, o, w);
  }

  // ---------- where nodes come from ----------

  lemma MapBagMember<A, B>(f: A -> B, s: seq<A>, y: B)
    ensures y in multiset(Map(f, s)) <==> exists x :: x in s && f(x) == y
  {
    MapMember(f, s, y);
    assert y in multiset(Map(f, s)) <==> y in Map(f, s);
  }

  lemma NodeHasOrigin(g: Context, parts: Parts, n: Node) returns (origin: Origin)
    requires n in NodeBag(g, parts)
    ensures Has(parts, origin) && OriginNode(g, origin) == n
  {
    hide ComponentNode, ToolNode, MarketNode, PluginNode, MintedNode, Minted, InstallationNode, BagSum, Tools;
    BagSumMember(NodesOf(g), parts.owned, n);
    MapBagMember(MarketNode(g), parts.marketplaces, n);
    MapBagMember(PluginNode(g), parts.plugins, n);
    MapBagMember(MintedNode(g), Minted(parts.marketplaces, parts.plugins), n);
    if n == InstallationNode(g) {
      origin := FromInstallation;
    } else if n in BagSum(NodesOf(g), parts.owned) {
      var i :| 0 <= i < |parts.owned| && n in NodesOf(g)(parts.owned[i]);
      origin := ComponentOrigin(g, parts.owned[i], n);
    } else if n in multiset(Map(MarketNode(g), parts.marketplaces)) {
      var m :| m in parts.marketplaces && MarketNode(g)(m) == n;
      origin := FromMarket(m);
    } else if n in multiset(Map(PluginNode(g), parts.plugins)) {
      var p :| p in parts.plugins && PluginNode(g)(p) == n;
      origin := FromPlugin(p);
    } else {
      var name :| name in Minted(parts.marketplaces, parts.plugins) && MintedNode(g)(name) == n;
      origin := FromMinted(name);
    }
  }

  lemma ComponentOrigin(g: Context, o: Owned, n: Node) returns (origin: Origin)
    requires n in NodesOf(g)(o)
    ensures origin == FromComponent(o) || (origin.FromTool? && origin.server == o && origin.tool in Tools(o.component))
    ensures OriginNode(g, origin) == n
  {
    hide ComponentNode, ToolNode, Tools;
    MapBagMember(ToolNode(g, ComponentNode(g, o)), Tools(o.component), n);
    if n == ComponentNode(g, o) {
      origin := FromComponent(o);
    } else {
      var tool :| tool in Tools(o.component) && ToolNode(g, ComponentNode(g, o))(tool) == n;
      origin := FromTool(o, tool);
    }
  }

  lemma NodeIdsUnique(g: Context, input: Input, x: Node, y: Node)
    requires Injective(g.hex) && DistinctKeys(input)
    requires x in NodeBag(g, PartsOf(g, input)) && y in NodeBag(g, PartsOf(g, input)) && x.id == y.id
    ensures x == y
  {
    hide NodeBag, PartsOf, DistinctKeys, Has, OriginNode;
    var a := NodeHasOrigin(g, PartsOf(g, input), x);
    var b := NodeHasOrigin(g, PartsOf(g, input), y);
    SameIdSameNode(g, input, a, b);
  }

  // ---------- where edges come from ----------

  /** Every edge is made from a label and two parts. */
  ghost predicate Labelled(g: Context, e: Edge)
  {
    exists tag, from, part :: e == MakeEdge(g, tag, from, part)
  }

  lemma LabelTextInjective(a: EdgeLabel, b: EdgeLabel)
    requires LabelText(a) == LabelText(b)
    ensures a == b
  {
    assert |LabelText(a)| == |LabelText(b)|;
    assert LabelText(a)[0] == LabelText(b)[0];
  }

  lemma SameIdSameEdge(g: Context, e: Edge, f: Edge)
    requires Injective(g.hex) && Labelled(g, e) && Labelled(g, f) && e.id == f.id
    ensures e == f
  {
    hide LabelText, EdgeKindOf;
    var a, x, u :| e == MakeEdge(g, a, x, u);
    var b, y, v :| f == MakeEdge(g, b, y, v);
    var p, q := [LabelText(a), x, u], [LabelText(b), y, v];
    assert e.id[5..] == g.hex(p) && f.id[5..] == g.hex(q);
    assert p[0] == q[0] && p[1] == q[1] && p[2] == q[2];
    LabelTextInjective(a, b);
  }

  lemma {:induction false} CollisionMember(d: Maker, nodes: seq<Node>, e: Edge)
    requires e in Collisions(d, nodes)
    ensures exists x, y :: x in nodes && y in nodes && x.name == y.name && e == Joint(d, x, y)
  {
    hide Joint, CollisionsWith, BagSum;
    var front, last := nodes[..|nodes| - 1], nodes[|nodes| - 1];
    assert last in nodes && forall x :: x in front ==> x in nodes;
    if e in Collisions(d, front) {
      CollisionMember(d, front, e);
    } else {
      var x := LastCollision(d, front, last, e);
      assert x in nodes;
    }
  }

  lemma LastCollision(d: Maker, front: seq<Node>, last: Node, e: Edge) returns (x: Node)
    requires e in BagSum(CollisionsWith(d, last), front)
    ensures x in front && last.name == x.name && e == Joint(d, last, x)
  {
    hide Joint, BagSum;
    BagSumMember(CollisionsWith(d, last), front, e);
    var i :| 0 <= i < |front| && e in CollisionsWith(d, last)(front[i]);
    x := front[i];
  }

  /** An edge before collisions belongs to a component or a plugin. */
  lemma PlainEdgeOrigin(g: Context, parts: Parts, e: Edge)
    requires e in PlainEdgeBag(g, parts)
    ensures (exists o :: o in parts.owned && e in EdgesOf(g)(o))
      || (exists p :: p in parts.plugins && e in PluginEdges(g, parts.marketplaces)(p))
  {
    hide EdgesOf, PluginEdges, BagSum;
    BagSumMember(EdgesOf(g), parts.owned, e);
    BagSumMember(PluginEdges(g, parts.marketplaces), parts.plugins, e);
    if e in BagSum(EdgesOf(g), parts.owned) {
      var i :| 0 <= i < |parts.owned| && e in EdgesOf(g)(parts.owned[i]);
      assert parts.owned[i] in parts.owned;
    } else {
      var i :| 0 <= i < |parts.plugins| && e in PluginEdges(g, parts.marketplaces)(parts.plugins[i]);
      assert parts.plugins[i] in parts.plugins;
    }
  }

  lemma CollisionEdgeOrigin(g: Context, parts: Parts, e: Edge) returns (b: Bucket)
    requires e in EdgeBag(g, parts) && e !in PlainEdgeBag(g, parts)
    ensures e in Collisions(CollisionMaker(g, b), Filed(g, b, parts))
  {
    hide PlainEdgeBag, BagSum, CollisionMaker, Filed, Collisions;
    BagSumMember(CollisionsOf(g, parts), BUCKETS, e);
    var i :| 0 <= i < |BUCKETS| && e in CollisionsOf(g, parts)(BUCKETS[i]);
    b := BUCKETS[i];
  }

  lemma EdgesAreLabelled(g: Context, parts: Parts, e: Edge)
    requires e in EdgeBag(g, parts)
    ensures Labelled(g, e)
  {
    hide MakeEdge, Filed, EdgeBag, PlainEdgeBag, Collisions, EdgesOf, PluginEdges, CollisionMaker;
    if e in PlainEdgeBag(g, parts) {
      PlainEdgeOrigin(g, parts, e);
      if o :| o in parts.owned && e in EdgesOf(g)(o) {
        ComponentEdgeLabelled(g, o, e);
      } else {
        var p :| p in parts.plugins && e in PluginEdges(g, parts.marketplaces)(p);
        PluginEdgeLabelled(g, parts.marketplaces, p, e);
      }
    } else {
      var b := CollisionEdgeOrigin(g, parts, e);
      CollisionMember(CollisionMaker(g, b), Filed(g, b, parts), e);
      var x, y :| e == Joint(CollisionMaker(g, b), x, y);
      CollisionEdgeLabelled(g, b, x, y);
    }
  }

  lemma CollisionEdgeLabelled(g: Context, b: Bucket, x: Node, y: Node)
    ensures Labelled(g, Joint(CollisionMaker(g, b), x, y))
    ensures Joint(CollisionMaker(g, b), x, y).kind == CollidesWith
    ensures Joint(CollisionMaker(g, b), x, y) == MakeEdge(g, CollisionLabel(b), x.id, y.id)
         || Joint(CollisionMaker(g, b), x, y) == MakeEdge(g, CollisionLabel(b), y.id, x.id)
  {
    var tag := CollisionLabel(b);
    if NodeLeq(x, y) {
      assert Joint(CollisionMaker(g, b), x, y) == MakeEdge(g, tag, x.id, y.id);
    } else {
      assert Joint(CollisionMaker(g, b), x, y) == MakeEdge(g, tag, y.id, x.id);
    }
  }

  /** The three ways a component comes by an edge. */
  lemma ComponentEdgeCases(g: Context, o: Owned, e: Edge)
    requires e in EdgesOf(g)(o)
    ensures var id := ComponentNode(g, o).id;
      || (Enabled(o) && e == MakeEdge(g, EnabledLabel, id, InstallationId(g)))
      || (o.owner != "" && e == MakeEdge(g, BundlesLabel, o.owner, id))
      || exists tool ::
           tool in Tools(o.component) && e == MakeEdge(g, ProvidesLabel, id, ToolNode(g, ComponentNode(g, o))(tool).id)
  {
    hide MakeEdge, ComponentNode, ToolNode, Tools, InstallationId;
    var node := ComponentNode(g, o);
    MapBagMember(ProvidesEdge(g, node), Tools(o.component), e);
    if e in multiset(Map(ProvidesEdge(g, node), Tools(o.component))) {
      var tool :| tool in Tools(o.component) && ProvidesEdge(g, node)(tool) == e;
      assert e == MakeEdge(g, ProvidesLabel, node.id, ToolNode(g, node)(tool).id);
    }
  }

  lemma ComponentEdgeLabelled(g: Context, o: Owned, e: Edge)
    requires e in EdgesOf(g)(o)
    ensures Labelled(g, e)
  {
    hide MakeEdge, ComponentNode, ToolNode, Tools, EdgesOf;
    ComponentEdgeCases(g, o, e);
  }

  lemma PluginEdgeLabelled(g: Context, marketplaces: seq<Marketplace>, p: Plugin, e: Edge)
    requires e in PluginEdges(g, marketplaces)(p)
    ensures Labelled(g, e)
  {
    hide MakeEdge, MarketFor, PluginId;
    assert e == MakeEdge(g, PluginEnabledLabel, PluginId(g, p), p.activeFor)
        || e == MakeEdge(g, ConfiguredLabel, PluginId(g, p), MarketFor(g, marketplaces, p.fromMarketplace).id);
  }

  lemma EdgeIdsUnique(g: Context, parts: Parts, e: Edge, f: Edge)
    requires Injective(g.hex) && e in EdgeBag(g, parts) && f in EdgeBag(g, parts) && e.id == f.id
    ensures e == f
  {
    hide EdgeBag, Labelled;
    EdgesAreLabelled(g, parts, e);
    EdgesAreLabelled(g, parts, f);
    SameIdSameEdge(g, e, f);
  }
}
