/** The structural conditions of the ingestion check (validateInventorySnapshot,
    internal/dataplatform/inventory.go) on a built graph: endpoints always exist, and node ids
    repeat exactly when a server advertises a tool twice. */
module GraphAdmission {
  import opened Ordering
  import opened InventoryTypes
  import opened GraphCollisions
  import opened InventoryGraph
  import opened GraphIdentity
  import opened GraphOrder
  import opened GraphProperties

  // ---------- endpoints ----------

  ghost predicate IdIn(nodes: multiset<Node>, id: string)
  {
    exists n :: n in nodes && n.id == id
  }

  lemma OriginInBag(g: Context, parts: Parts, origin: Origin)
    requires Has(parts, origin)
    ensures OriginNode(g, origin) in NodeBag(g, parts)
  {
    hide ComponentNode, ToolNode, MarketNode, PluginNode, MintedNode, Minted, InstallationNode, BagSum, Tools;
    var n := OriginNode(g, origin);
    match origin {
      case FromInstallation =>
      case FromComponent(o) => OwnedNodeInBag(g, parts, o, n);
      case FromTool(o, tool) =>
        MapBagMember(ToolNode(g, ComponentNode(g, o)), Tools(o.component), n);
        OwnedNodeInBag(g, parts, o, n);
      case FromMarket(m) => MapBagMember(MarketNode(g), parts.marketplaces, n);
      case FromPlugin(p) => MapBagMember(PluginNode(g), parts.plugins, n);
      case FromMinted(name) => MapBagMember(MintedNode(g), Minted(parts.marketplaces, parts.plugins), n);
    }
  }

  lemma OwnedNodeInBag(g: Context, parts: Parts, o: Owned, n: Node)
    requires o in parts.owned && n in NodesOf(g)(o)
    ensures n in BagSum(NodesOf(g), parts.owned)
  {
    hide NodesOf, BagSum;
    var i :| 0 <= i < |parts.owned| && parts.owned[i] == o;
    BagSumMember(NodesOf(g), parts.owned, n);
  }

  lemma OriginIdIn(g: Context, parts: Parts, origin: Origin)
    requires Has(parts, origin)
    ensures IdIn(NodeBag(g, parts), NodeId(g, OriginParts(g, origin)))
  {
    hide NodeBag, Has, OriginNode, OriginParts, NodeId;
    OriginInBag(g, parts, origin);
    OriginId(g, origin);
  }

  lemma {:induction false} MarketForOrigin(g: Context, markets: seq<Marketplace>, name: string)
    ensures (exists m :: m in markets && m.name == name && MarketFor(g, markets, name) == MarketNode(g)(m))
         || (!InventoryGraph.Registered(markets, name) && MarketFor(g, markets, name) == MintedNode(g)(name))
    decreases markets
  {
    hide MarketNode, MintedNode;
    if markets != [] && markets[0].name != name {
      MarketForOrigin(g, markets[1..], name);
      assert markets == [markets[0]] + markets[1..];
    }
  }

  lemma InstallationIn(g: Context, parts: Parts)
    ensures IdIn(NodeBag(g, parts), InstallationId(g))
  {
    hide NodeBag;
    OriginIdIn(g, parts, FromInstallation);
  }

  lemma PluginIn(g: Context, parts: Parts, p: Plugin)
    requires p in parts.plugins
    ensures IdIn(NodeBag(g, parts), PluginId(g, p))
  {
    hide NodeBag, PluginParts;
    OriginIdIn(g, parts, FromPlugin(p));
  }

  lemma ComponentIn(g: Context, parts: Parts, o: Owned)
    requires o in parts.owned
    ensures IdIn(NodeBag(g, parts), ComponentNode(g, o).id)
    ensures forall tool :: tool in Tools(o.component) ==>
      IdIn(NodeBag(g, parts), ToolNode(g, ComponentNode(g, o))(tool).id)
  {
    hide NodeBag, Tools, ComponentParts, ToolNode, ComponentNode, NodeId;
    OriginIdIn(g, parts, FromComponent(o));
    OriginId(g, FromComponent(o));
    forall tool | tool in Tools(o.component)
      ensures IdIn(NodeBag(g, parts), ToolNode(g, ComponentNode(g, o))(tool).id)
    {
      OriginIdIn(g, parts, FromTool(o, tool));
      OriginId(g, FromTool(o, tool));
    }
  }

  lemma MarketIn(g: Context, parts: Parts, p: Plugin)
    requires p in parts.plugins && p.fromMarketplace != ""
    ensures IdIn(NodeBag(g, parts), MarketFor(g, parts.marketplaces, p.fromMarketplace).id)
  {
    hide NodeBag, MarketNode, MintedNode, MarketFor, NodeId, Minted;
    var name := p.fromMarketplace;
    MarketForOrigin(g, parts.marketplaces, name);
    if m :| m in parts.marketplaces && m.name == name && MarketFor(g, parts.marketplaces, name) == MarketNode(g)(m) {
      OriginInBag(g, parts, FromMarket(m));
    } else {
      MintedMember(parts.marketplaces, parts.plugins, name);
      OriginInBag(g, parts, FromMinted(name));
    }
  }

  lemma FiledIn(g: Context, parts: Parts, b: Bucket, n: Node)
    requires n in Filed(g, b, parts)
    ensures IdIn(NodeBag(g, parts), n.id)
  {
    hide NodeBag, MarketNode, MintedNode, PluginNode, ComponentNode, FiledComponents, Minted;
    match b {
      case PluginBucket =>
        MapMember(PluginNode(g), parts.plugins, n);
        var p :| p in parts.plugins && PluginNode(g)(p) == n;
        OriginInBag(g, parts, FromPlugin(p));
      case MarketplaceBucket =>
        MapMember(MarketNode(g), parts.marketplaces, n);
        MapMember(MintedNode(g), Minted(parts.marketplaces, parts.plugins), n);
        if m :| m in parts.marketplaces && MarketNode(g)(m) == n {
          OriginInBag(g, parts, FromMarket(m));
        } else {
          var name :| name in Minted(parts.marketplaces, parts.plugins) && MintedNode(g)(name) == n;
          OriginInBag(g, parts, FromMinted(name));
        }
      case _ =>
        var o := FiledComponentFrom(g, b, parts.owned, n);
        OriginInBag(g, parts, FromComponent(o));
    }
  }

  lemma {:induction false} FiledComponentFrom(g: Context, b: Bucket, owned: seq<Owned>, n: Node) returns (o: Owned)
    requires n in FiledComponents(g, b, owned)
    ensures o in owned && ComponentNode(g, o) == n
  {
    hide ComponentNode;
    var k := |owned| - 1;
    if n in FiledComponents(g, b, owned[..k]) {
      o := FiledComponentFrom(g, b, owned[..k], n);
    } else {
      o := owned[k];
    }
  }

  /** Both ends of every edge are nodes of the graph. */
  lemma EndpointsExist(g: Context, input: Input, e: Edge)
    requires e in EdgeBag(g, PartsOf(g, input))
    ensures IdIn(NodeBag(g, PartsOf(g, input)), e.from) && IdIn(NodeBag(g, PartsOf(g, input)), e.to)
  {
    hide EdgeBag, PlainEdgeBag, NodeBag, IdIn, EdgesOf, PluginEdges, Filed, Collisions, CollisionMaker, PartsOf;
    var parts := PartsOf(g, input);
    if e in PlainEdgeBag(g, parts) {
      PlainEdgeOrigin(g, parts, e);
      if o :| o in parts.owned && e in EdgesOf(g)(o) {
        ComponentEndpoints(g, input, o, e);
      } else {
        var p :| p in parts.plugins && e in PluginEdges(g, parts.marketplaces)(p);
        PluginEndpoints(g, parts, p, e);
      }
    } else {
      var b := CollisionEdgeOrigin(g, parts, e);
      CollisionMember(CollisionMaker(g, b), Filed(g, b, parts), e);
      var x, y :| x in Filed(g, b, parts) && y in Filed(g, b, parts) && e == Joint(CollisionMaker(g, b), x, y);
      FiledIn(g, parts, b, x);
      FiledIn(g, parts, b, y);
      CollisionEdgeLabelled(g, b, x, y);
      CollisionEnds(g, b, x.id, y.id);
      CollisionEnds(g, b, y.id, x.id);
    }
  }

  lemma CollisionEnds(g: Context, b: Bucket, from: string, to: string)
    ensures MakeEdge(g, CollisionLabel(b), from, to).from == from && MakeEdge(g, CollisionLabel(b), from, to).to == to
  {
  }

  /** The owner a component carries is some plugin's node. */
  lemma OwnerExists(g: Context, input: Input, o: Owned) returns (p: Plugin)
    requires o in PartsOf(g, input).owned && o.owner != ""
    ensures p in input.plugins && o.owner == PluginId(g, p)
  {
    hide PluginOwned, PluginId, Standalone;
    MapMember(Own("", true), Standalone(input), o);
    p := OwnerAmong(g, input.plugins, o);
  }

  lemma {:induction false} OwnerAmong(g: Context, plugins: seq<Plugin>, o: Owned) returns (p: Plugin)
    requires o in PluginOwned(g, plugins)
    ensures p in plugins && o.owner == PluginId(g, p)
  {
    hide PluginId, Components, EnabledIn;
    var front, last := plugins[..|plugins| - 1], plugins[|plugins| - 1];
    assert plugins == front + [last];
    if o in PluginOwned(g, front) {
      p := OwnerAmong(g, front, o);
    } else {
      p := last;
      MapMember(Own(PluginId(g, last), EnabledIn(g, plugins, PluginId(g, last))), Components(last), o);
    }
  }

  lemma ComponentEndpoints(g: Context, input: Input, o: Owned, e: Edge)
    requires o in PartsOf(g, input).owned && e in EdgesOf(g)(o)
    ensures IdIn(NodeBag(g, PartsOf(g, input)), e.from) && IdIn(NodeBag(g, PartsOf(g, input)), e.to)
  {
    hide NodeBag, IdIn, EdgesOf, ComponentNode, ToolNode, InstallationId, LabelText, PartsOf, PluginId, Tools;
    var parts := PartsOf(g, input);
    MarketsOfParts(g, input);
    ComponentEdgeCases(g, o, e);
    ComponentIn(g, parts, o);
    InstallationIn(g, parts);
    if e == MakeEdge(g, BundlesLabel, o.owner, ComponentNode(g, o).id) && o.owner != "" {
      var p := OwnerExists(g, input, o);
      PluginIn(g, parts, p);
    }
  }

  lemma PluginEndpoints(g: Context, parts: Parts, p: Plugin, e: Edge)
    requires p in parts.plugins && e in PluginEdges(g, parts.marketplaces)(p)
    ensures IdIn(NodeBag(g, parts), e.from) && IdIn(NodeBag(g, parts), e.to)
  {
    hide NodeBag, IdIn, InstallationId, LabelText, PluginId, MarketFor;
    PluginIn(g, parts, p);
    InstallationIn(g, parts);
    if p.fromMarketplace != "" { MarketIn(g, parts, p); }
  }

  // ---------- node ids ----------

  ghost predicate ToolsDistinct(input: Input)
  {
    && (forall c :: c in Standalone(input) ==> NoDuplicates(Tools(c)))
    && forall p, c :: p in input.plugins && c in Components(p) ==> NoDuplicates(Tools(c))
  }

  /** An element that at most one entry contributes, and that entry once, occurs at most once. */
  lemma {:induction false} BagSumOnce<A(!new), B(!new)>(f: A -> multiset<B>, s: seq<A>, y: B)
    requires NoDuplicates(s)
    requires forall x :: x in s ==> f(x)[y] <= 1
    requires forall x, z :: x in s && z in s && y in f(x) && y in f(z) ==> x == z
    ensures BagSum(f, s)[y] <= 1
  {
    if s != [] {
      var n := |s| - 1;
      var front, last := s[..n], s[n];
      assert s == front + [last];
      assert last in s && forall x :: x in front ==> x in s;
      BagSumOnce(f, front, y);
      if y in f(last) {
        BagSumMember(f, front, y);
        forall i | 0 <= i < |front| ensures y !in f(front[i]) {
          assert front[i] in s && front[i] == s[i];
        }
      }
    }
  }

  lemma MapOnce<A(!new), B(!new)>(f: A -> B, s: seq<A>, y: B)
    requires NoDuplicates(s) && forall x, z :: x in s && z in s && f(x) == f(z) ==> x == z
    ensures multiset(Map(f, s))[y] <= 1
  {
    forall i, j | 0 <= i < j < |s| ensures Map(f, s)[i] != Map(f, s)[j] {
      assert s[i] in s && s[j] in s && s[i] != s[j];
    }
    NoDuplicatesMultiplicity(Map(f, s), y);
  }

  lemma SameNodeSameOrigin(g: Context, input: Input, a: Origin, b: Origin)
    requires Injective(g.hex) && DistinctKeys(input)
    requires Has(PartsOf(g, input), a) && Has(PartsOf(g, input), b) && OriginNode(g, a).id == OriginNode(g, b).id
    ensures a == b
  {
    hide OriginNode, PartsOf, DistinctComponents, Has, OriginParts;
    OriginId(g, a);
    OriginId(g, b);
    NodeIdInjective(g, OriginParts(g, a), OriginParts(g, b));
    PartsTellOriginsApart(g, a, b);
    SameOrigin(g, input, a, b);
  }

  lemma OwnedToolsDistinct(g: Context, input: Input, o: Owned)
    requires Injective(g.hex) && DistinctKeys(input) && ToolsDistinct(input) && o in PartsOf(g, input).owned
    ensures NoDuplicates(Tools(o.component))
  {
    hide PartsOf, DistinctComponents, Standalone, Components, PluginId, Tools;
    OwnedMember(g, input, o);
  }

  /** A component contributes any node at most once. */
  lemma ComponentNodesOnce(g: Context, input: Input, o: Owned, y: Node)
    requires Injective(g.hex) && DistinctKeys(input) && o in PartsOf(g, input).owned && NoDuplicates(Tools(o.component))
    ensures NodesOf(g)(o)[y] <= 1
  {
    hide PartsOf, DistinctKeys, ComponentNode, ToolNode, Tools;
    var node, tools := ComponentNode(g, o), Tools(o.component);
    forall s, t | s in tools && t in tools && ToolNode(g, node)(s) == ToolNode(g, node)(t) ensures s == t {
      SameNodeSameOrigin(g, input, FromTool(o, s), FromTool(o, t));
    }
    MapOnce(ToolNode(g, node), tools, y);
    MapBagMember(ToolNode(g, node), tools, node);
    if tool :| tool in tools && ToolNode(g, node)(tool) == node {
      SameNodeSameOrigin(g, input, FromTool(o, tool), FromComponent(o));
    }
  }

  lemma OwnedNodesOnce(g: Context, input: Input, y: Node)
    requires Injective(g.hex) && DistinctKeys(input) && ToolsDistinct(input)
    ensures BagSum(NodesOf(g), PartsOf(g, input).owned)[y] <= 1
  {
    hide PartsOf, DistinctKeys, NodesOf, ToolsDistinct, Has, Tools;
    var owned := PartsOf(g, input).owned;
    OwnedOnce(g, input);
    forall o | o in owned ensures NodesOf(g)(o)[y] <= 1 {
      OwnedToolsDistinct(g, input, o);
      ComponentNodesOnce(g, input, o, y);
    }
    forall o, w | o in owned && w in owned && y in NodesOf(g)(o) && y in NodesOf(g)(w) ensures o == w {
      var a := ComponentOrigin(g, o, y);
      var b := ComponentOrigin(g, w, y);
      OwnedOrigin(g, PartsOf(g, input), o, a);
      OwnedOrigin(g, PartsOf(g, input), w, b);
      SameNodeSameOrigin(g, input, a, b);
    }
    BagSumOnce(NodesOf(g), owned, y);
  }

  lemma OwnedOrigin(g: Context, parts: Parts, o: Owned, a: Origin)
    requires o in parts.owned
    requires a == FromComponent(o) || (a.FromTool? && a.server == o && a.tool in Tools(o.component))
    ensures Has(parts, a)
  {
  }

  /** The five contributions to the node bag, each holding any node at most once. */
  lemma PartsOnce(g: Context, input: Input, y: Node)
    requires Injective(g.hex) && DistinctKeys(input) && ToolsDistinct(input)
    ensures BagSum(NodesOf(g), PartsOf(g, input).owned)[y] <= 1
    ensures multiset(Map(MarketNode(g), input.marketplaces))[y] <= 1
    ensures multiset(Map(PluginNode(g), input.plugins))[y] <= 1
    ensures multiset(Map(MintedNode(g), Minted(input.marketplaces, input.plugins)))[y] <= 1
  {
    hide DistinctComponents, ToolsDistinct, Minted, MarketNode, PluginNode, MintedNode, NodesOf, BagSum;
    hide PartsOf, NodeId, PluginParts;
    var names := Minted(input.marketplaces, input.plugins);
    MarketsOfParts(g, input);
    OwnedNodesOnce(g, input, y);
    NoDuplicatesFromKeys(MarketKeyOf(), input.marketplaces);
    NoDuplicatesFromKeys(PluginKeyOf(), input.plugins);
    MintedMember(input.marketplaces, input.plugins, "");
    forall m, n | m in input.marketplaces && n in input.marketplaces && MarketNode(g)(m) == MarketNode(g)(n)
      ensures m == n
    {
      SameNodeSameOrigin(g, input, FromMarket(m), FromMarket(n));
    }
    forall p, q | p in input.plugins && q in input.plugins && PluginNode(g)(p) == PluginNode(g)(q) ensures p == q {
      SameNodeSameOrigin(g, input, FromPlugin(p), FromPlugin(q));
    }
    forall m, n | m in names && n in names && MintedNode(g)(m) == MintedNode(g)(n) ensures m == n {
      SameNodeSameOrigin(g, input, FromMinted(m), FromMinted(n));
    }
    MapOnce(MarketNode(g), input.marketplaces, y);
    MapOnce(PluginNode(g), input.plugins, y);
    MapOnce(MintedNode(g), names, y);
  }

  /** Which contribution a node belongs to. */
  lemma PartOrigins(g: Context, input: Input, y: Node)
    ensures var parts := PartsOf(g, input);
      && (y == InstallationNode(g) ==> Comes(g, parts, FromInstallation, y))
      && (y in BagSum(NodesOf(g), parts.owned) ==>
          exists a: Origin :: (a.FromComponent? || a.FromTool?) && Comes(g, parts, a, y))
      && (y in multiset(Map(MarketNode(g), parts.marketplaces)) ==>
          exists a: Origin :: a.FromMarket? && Comes(g, parts, a, y))
      && (y in multiset(Map(PluginNode(g), parts.plugins)) ==>
          exists a: Origin :: a.FromPlugin? && Comes(g, parts, a, y))
      && (y in multiset(Map(MintedNode(g), Minted(parts.marketplaces, parts.plugins))) ==>
          exists a: Origin :: a.FromMinted? && Comes(g, parts, a, y))
  {
    hide ComponentNode, ToolNode, MarketNode, PluginNode, MintedNode, Minted, InstallationNode, BagSum;
    hide NodesOf, PartsOf, Tools;
    var parts := PartsOf(g, input);
    BagSumMember(NodesOf(g), parts.owned, y);
    MapBagMember(MarketNode(g), parts.marketplaces, y);
    MapBagMember(PluginNode(g), parts.plugins, y);
    MapBagMember(MintedNode(g), Minted(parts.marketplaces, parts.plugins), y);
    if y in BagSum(NodesOf(g), parts.owned) {
      var i :| 0 <= i < |parts.owned| && y in NodesOf(g)(parts.owned[i]);
      var a := ComponentOrigin(g, parts.owned[i], y);
      assert Comes(g, parts, a, y);
    }
    if m :| m in parts.marketplaces && MarketNode(g)(m) == y { assert Comes(g, parts, FromMarket(m), y); }
    if p :| p in parts.plugins && PluginNode(g)(p) == y { assert Comes(g, parts, FromPlugin(p), y); }
    if name :| name in Minted(parts.marketplaces, parts.plugins) && MintedNode(g)(name) == y {
      assert Comes(g, parts, FromMinted(name), y);
    }
  }

  ghost predicate Comes(g: Context, parts: Parts, a: Origin, y: Node)
  {
    Has(parts, a) && OriginNode(g, a) == y
  }

  lemma NodesOnce(g: Context, input: Input, y: Node)
    requires Injective(g.hex) && DistinctKeys(input) && ToolsDistinct(input)
    ensures NodeBag(g, PartsOf(g, input))[y] <= 1
  {
    hide DistinctKeys, ToolsDistinct, Minted, MarketNode, PluginNode, MintedNode, NodesOf, BagSum, PartsOf;
    hide InstallationNode, Has, OriginNode;
    var parts := PartsOf(g, input);
    MarketsOfParts(g, input);
    PartsOnce(g, input, y);
    PartOrigins(g, input, y);
    forall a, b | Comes(g, parts, a, y) && Comes(g, parts, b, y) ensures a == b {
      SameNodeSameOrigin(g, input, a, b);
    }
  }

  function IdOf(): Node -> string
  {
    (n: Node) => n.id
  }

  /** A tool that a server advertises twice makes one node twice. */
  lemma RepeatedTool(g: Context, parts: Parts, o: Owned)
    requires o in parts.owned && !NoDuplicates(Tools(o.component))
    ensures exists y :: NodeBag(g, parts)[y] > 1
  {
    hide ComponentNode, ToolNode, MarketNode, PluginNode, MintedNode, Minted, InstallationNode, Tools, BagSum;
    var tools, f := Tools(o.component), ToolNode(g, ComponentNode(g, o));
    var i, j :| 0 <= i < j < |tools| && tools[i] == tools[j];
    var y := f(tools[i]);
    BagWithout(Map(f, tools), j);
    var rest := Map(f, tools)[..j] + Map(f, tools)[j + 1..];
    assert rest[i] == y && y in multiset(rest);
    assert multiset(Map(f, tools))[y] >= 2;
    assert NodesOf(g)(o)[y] >= 2;
    var k :| 0 <= k < |parts.owned| && parts.owned[k] == o;
    BagSumWithout(NodesOf(g), parts.owned, k);
    assert BagSum(NodesOf(g), parts.owned)[y] >= 2;
    assert NodeBag(g, parts)[y] > 1;
  }

  lemma RepeatsAreDuplicates<T(!new)>(s: seq<T>)
    ensures NoDuplicates(s) <==> forall y :: multiset(s)[y] <= 1
  {
    if NoDuplicates(s) {
      forall y ensures multiset(s)[y] <= 1 { NoDuplicatesMultiplicity(s, y); }
    }
    forall i, j | 0 <= i < j < |s| && s[i] == s[j] ensures multiset(s)[s[i]] > 1 {
      BagWithout(s, j);
      assert (s[..j] + s[j + 1..])[i] == s[i];
      assert s[i] in multiset(s[..j] + s[j + 1..]);
    }
  }

  /** Node ids of a built graph are distinct exactly when no server advertises a tool twice. */
  lemma NodesAdmittedIff(hex: Hex, input: Input, now: int, s: Snapshot)
    requires Injective(hex) && DistinctKeys(input) && IsSnapshot(hex, input, now, s)
    ensures NoDuplicates(Map(IdOf(), s.nodes)) <==> ToolsDistinct(input)
  {
    hide NodeBag, EdgeBag, PartsOf, DistinctKeys, ToolsDistinct, FingerprintParts, NoDuplicates, Map;
    var g := Context(hex, input.installation);
    var parts := PartsOf(g, input);
    RepeatsAreDuplicates(s.nodes);
    NodesAndIds(g, input, s.nodes);
    if ToolsDistinct(input) {
      forall y ensures multiset(s.nodes)[y] <= 1 { NodesOnce(g, input, y); }
    } else {
      var o := RepeatingServer(g, input);
      RepeatedTool(g, parts, o);
    }
  }

  lemma RepeatingServer(g: Context, input: Input) returns (o: Owned)
    requires Injective(g.hex) && DistinctKeys(input) && !ToolsDistinct(input)
    ensures o in PartsOf(g, input).owned && !NoDuplicates(Tools(o.component))
  {
    hide PartsOf, DistinctComponents, Standalone, Components, PluginId, Tools, NoDuplicates;
    if c :| c in Standalone(input) && !NoDuplicates(Tools(c)) {
      o := Owned(c, "", true);
    } else {
      var p, c :| p in input.plugins && c in Components(p) && !NoDuplicates(Tools(c));
      o := Owned(c, PluginId(g, p), Active(p));
    }
    OwnedMember(g, input, o);
  }

  lemma NodesAndIds(g: Context, input: Input, nodes: seq<Node>)
    requires Injective(g.hex) && DistinctKeys(input) && multiset(nodes) == NodeBag(g, PartsOf(g, input))
    ensures NoDuplicates(Map(IdOf(), nodes)) <==> NoDuplicates(nodes)
  {
    hide NodeBag, PartsOf, DistinctKeys;
    if NoDuplicates(Map(IdOf(), nodes)) { NoDuplicatesFromKeys(IdOf(), nodes); }
    if NoDuplicates(nodes) {
      forall i, j | 0 <= i < j < |nodes| ensures Map(IdOf(), nodes)[i] != Map(IdOf(), nodes)[j] {
        assert nodes[i] in multiset(nodes) && nodes[j] in multiset(nodes);
        if nodes[i].id == nodes[j].id { NodeIdsUnique(g, input, nodes[i], nodes[j]); }
      }
    }
  }

  /** No edge of a built graph points at a missing node, whatever the digests and the input. */
  lemma EndpointsAdmitted(hex: Hex, input: Input, now: int, s: Snapshot)
    requires IsSnapshot(hex, input, now, s)
    ensures forall e :: e in s.edges ==>
      (exists n :: n in s.nodes && n.id == e.from) && exists n :: n in s.nodes && n.id == e.to
  {
    hide NodeBag, EdgeBag, PartsOf, FingerprintParts;
    var g := Context(hex, input.installation);
    forall e | e in s.edges
      ensures (exists n :: n in s.nodes && n.id == e.from) && exists n :: n in s.nodes && n.id == e.to
    {
      assert e in multiset(s.edges);
      EndpointsExist(g, input, e);
      var x :| x in NodeBag(g, PartsOf(g, input)) && x.id == e.from;
      var y :| y in NodeBag(g, PartsOf(g, input)) && y.id == e.to;
      assert x in multiset(s.nodes) && y in multiset(s.nodes);
    }
  }

  // ---------- edge ids ----------

  lemma SameComponentEnds(g: Context, input: Input, o: Owned, w: Owned, e: Edge)
    requires Injective(g.hex) && DistinctKeys(input)
    requires o in PartsOf(g, input).owned && w in PartsOf(g, input).owned
    requires e in EdgesOf(g)(o) && e in EdgesOf(g)(w)
    ensures o == w
  {
    hide PartsOf, DistinctKeys, EdgesOf, ComponentNode, ToolNode, Tools, InstallationId, LabelText;
    ComponentEdgeCases(g, o, e);
    ComponentEdgeCases(g, w, e);
    assert ComponentNode(g, o).id == ComponentNode(g, w).id;
    SameComponentId(g, input, o, w);
  }

  lemma ComponentEdgesOnce(g: Context, input: Input, o: Owned, e: Edge)
    requires Injective(g.hex) && DistinctKeys(input) && o in PartsOf(g, input).owned && NoDuplicates(Tools(o.component))
    ensures EdgesOf(g)(o)[e] <= 1
  {
    hide PartsOf, DistinctKeys, ComponentNode, ToolNode, Tools, InstallationId, LabelText, NoDuplicates, Enabled;
    var node, tools := ComponentNode(g, o), Tools(o.component);
    var f := ProvidesEdge(g, node);
    forall s, t | s in tools && t in tools && f(s) == f(t) ensures s == t {
      assert f(s).to == ToolNode(g, node)(s).id && f(t).to == ToolNode(g, node)(t).id;
      SameNodeSameOrigin(g, input, FromTool(o, s), FromTool(o, t));
    }
    MapOnce(f, tools, e);
    MapBagMember(f, tools, e);
    if tool :| tool in tools && f(tool) == e {
      assert f(tool) == MakeEdge(g, ProvidesLabel, node.id, ToolNode(g, node)(tool).id);
    }
  }

  lemma OwnedEdgesOnce(g: Context, input: Input, e: Edge)
    requires Injective(g.hex) && DistinctKeys(input) && ToolsDistinct(input)
    ensures BagSum(EdgesOf(g), PartsOf(g, input).owned)[e] <= 1
  {
    hide PartsOf, DistinctKeys, EdgesOf, ToolsDistinct, Tools;
    var owned := PartsOf(g, input).owned;
    OwnedOnce(g, input);
    forall o | o in owned ensures EdgesOf(g)(o)[e] <= 1 {
      OwnedToolsDistinct(g, input, o);
      ComponentEdgesOnce(g, input, o, e);
    }
    forall o, w | o in owned && w in owned && e in EdgesOf(g)(o) && e in EdgesOf(g)(w) ensures o == w {
      SameComponentEnds(g, input, o, w, e);
    }
    BagSumOnce(EdgesOf(g), owned, e);
  }

  lemma PluginEdgesOnce(g: Context, input: Input, e: Edge)
    requires Injective(g.hex) && DistinctKeys(input)
    ensures BagSum(PluginEdges(g, input.marketplaces), input.plugins)[e] <= 1
  {
    hide DistinctComponents, PluginEdges;
    var f := PluginEdges(g, input.marketplaces);
    NoDuplicatesFromKeys(PluginKeyOf(), input.plugins);
    forall p: Plugin ensures f(p)[e] <= 1 { OnePluginEdge(g, input.marketplaces, p, e); }
    forall p, q | p in input.plugins && q in input.plugins && e in f(p) && e in f(q) ensures p == q {
      OnePluginEdge(g, input.marketplaces, p, e);
      OnePluginEdge(g, input.marketplaces, q, e);
      PluginIdsDiffer(g, input.plugins, p, q);
    }
    BagSumOnce(f, input.plugins, e);
  }

  lemma OnePluginEdge(g: Context, marketplaces: seq<Marketplace>, p: Plugin, e: Edge)
    ensures PluginEdges(g, marketplaces)(p)[e] <= 1
    ensures e in PluginEdges(g, marketplaces)(p) ==> e.from == PluginId(g, p)
  {
    hide MarketFor, PluginId, LabelText, InstallationId;
  }

  /** No edge belongs to a component and to a plugin. */
  lemma ComponentOrPlugin(g: Context, input: Input, e: Edge)
    requires Injective(g.hex)
    ensures e in BagSum(EdgesOf(g), PartsOf(g, input).owned) ==>
      e !in BagSum(PluginEdges(g, input.marketplaces), input.plugins)
  {
    hide PartsOf, EdgesOf, PluginEdges, BagSum, ComponentNode, ToolNode, Tools, InstallationId, LabelText, PluginId;
    var owned := PartsOf(g, input).owned;
    BagSumMember(EdgesOf(g), owned, e);
    BagSumMember(PluginEdges(g, input.marketplaces), input.plugins, e);
    forall i, j | 0 <= i < |owned| && 0 <= j < |input.plugins| && e in EdgesOf(g)(owned[i])
      ensures e !in PluginEdges(g, input.marketplaces)(input.plugins[j])
    {
      ComponentOrThisPlugin(g, input.marketplaces, owned[i], input.plugins[j], e);
    }
  }

  lemma ComponentOrThisPlugin(g: Context, marketplaces: seq<Marketplace>, o: Owned, p: Plugin, e: Edge)
    requires Injective(g.hex) && e in EdgesOf(g)(o)
    ensures e !in PluginEdges(g, marketplaces)(p)
  {
    hide EdgesOf, ComponentNode, ToolNode, Tools, InstallationId, LabelText, PluginId, MarketFor;
    ComponentEdgeCases(g, o, e);
    ComponentIsNoPlugin(g, o, p);
  }

  lemma EdgesOnce(hex: Hex, input: Input, now: int, s: Snapshot, e: Edge)
    requires Injective(hex) && DistinctKeys(input) && ToolsDistinct(input) && IsSnapshot(hex, input, now, s)
    ensures multiset(s.edges)[e] <= 1
  {
    hide NodeBag, PartsOf, DistinctKeys, ToolsDistinct, FingerprintParts, EdgesOf, PluginEdges, BagSum;
    hide CollisionsOf, Collisions, Filed, CollisionMaker, IsSnapshot;
    var g := Context(hex, input.installation);
    var parts := PartsOf(g, input);
    MarketsOfParts(g, input);
    EdgesOfSnapshot(hex, input, now, s);
    if e in multiset(s.edges) {
      if e in PlainEdgeBag(g, parts) {
        OwnedEdgesOnce(g, input, e);
        PluginEdgesOnce(g, input, e);
        ComponentOrPlugin(g, input, e);
        PlainNeverCollides(g, parts, e);
      } else {
        var b := CollisionEdgeOrigin(g, parts, e);
        CollisionMember(CollisionMaker(g, b), Filed(g, b, parts), e);
        var x, y :| x in Filed(g, b, parts) && y in Filed(g, b, parts) && e == Joint(CollisionMaker(g, b), x, y);
        CollisionEdgeLabelled(g, b, x, y);
        SnapshotCollisions(hex, input, now, s, b, x.id, y.id);
        SnapshotCollisions(hex, input, now, s, b, y.id, x.id);
      }
    }
  }

  lemma EdgesOfSnapshot(hex: Hex, input: Input, now: int, s: Snapshot)
    requires IsSnapshot(hex, input, now, s)
    ensures multiset(s.edges) ==
      EdgeBag(Context(hex, input.installation), PartsOf(Context(hex, input.installation), input))
  {
    hide NodeBag, EdgeBag, PartsOf, FingerprintParts;
  }

  lemma CollisionsAreOfKind(g: Context, parts: Parts, e: Edge)
    ensures e in BagSum(CollisionsOf(g, parts), BUCKETS) ==> e.kind == CollidesWith
  {
    hide Filed, CollisionMaker, Collisions, BagSum, Joint;
    BagSumMember(CollisionsOf(g, parts), BUCKETS, e);
    if e in BagSum(CollisionsOf(g, parts), BUCKETS) {
      var i :| 0 <= i < |BUCKETS| && e in CollisionsOf(g, parts)(BUCKETS[i]);
      var b := BUCKETS[i];
      CollisionMember(CollisionMaker(g, b), Filed(g, b, parts), e);
      var x, y :| e == Joint(CollisionMaker(g, b), x, y);
      CollisionEdgeLabelled(g, b, x, y);
    }
  }

  lemma PlainNeverCollides(g: Context, parts: Parts, e: Edge)
    requires e in PlainEdgeBag(g, parts)
    ensures e !in BagSum(CollisionsOf(g, parts), BUCKETS)
  {
    hide PlainEdgeBag, BagSum, CollisionsOf;
    CollisionsAreOfKind(g, parts, e);
    if e.kind == CollidesWith { PlainIsNoCollision(g, parts, e); }
  }

  function EdgeIdOf(): Edge -> string
  {
    (e: Edge) => e.id
  }

  /** When no server advertises a tool twice, edge ids are distinct as well. */
  lemma EdgesAdmitted(hex: Hex, input: Input, now: int, s: Snapshot)
    requires Injective(hex) && DistinctKeys(input) && ToolsDistinct(input) && IsSnapshot(hex, input, now, s)
    ensures NoDuplicates(Map(EdgeIdOf(), s.edges))
  {
    hide NodeBag, EdgeBag, PartsOf, DistinctKeys, ToolsDistinct, FingerprintParts, IsSnapshot;
    var g := Context(hex, input.installation);
    EdgesOfSnapshot(hex, input, now, s);
    RepeatsAreDuplicates(s.edges);
    forall e ensures multiset(s.edges)[e] <= 1 { EdgesOnce(hex, input, now, s, e); }
    forall i, j | 0 <= i < j < |s.edges| ensures Map(EdgeIdOf(), s.edges)[i] != Map(EdgeIdOf(), s.edges)[j] {
      assert s.edges[i] in multiset(s.edges) && s.edges[j] in multiset(s.edges);
      if s.edges[i].id == s.edges[j].id { EdgeIdsUnique(g, PartsOf(g, input), s.edges[i], s.edges[j]); }
    }
  }
}
