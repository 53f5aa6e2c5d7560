/** Order independence: permuting any list of the input, at any level, gives the identical
    snapshot, although sorting is unstable and maps are visited in arbitrary order. */
module GraphOrder {
  import opened Ordering
  import opened InventoryTypes
  import opened GraphCollisions
  import opened InventoryGraph
  import opened GraphIdentity
  import GraphBuilder

  // ---------- inputs up to the order of every list ----------

  /** A component with its tools as a bag. */
  datatype ComponentShape = ComponentShape(core: Component, tools: multiset<string>)

  function Core(c: Component): Component
  {
    if c.McpServer? then c.(tools := []) else c
  }

  function ShapeOf(): Component -> ComponentShape
  {
    (c: Component) => ComponentShape(Core(c), multiset(Tools(c)))
  }

  /** A plugin with its components as a bag. The five kinds tell the bundled lists apart. */
  datatype PluginShape = PluginShape(core: Plugin, components: multiset<ComponentShape>)

  function PluginShapeOf(): Plugin -> PluginShape
  {
    (p: Plugin) =>
      PluginShape(p.(skills := [], commands := [], subagents := [], hooks := [], servers := []),
                  multiset(Map(ShapeOf(), Components(p))))
  }

  /** The same input with any of its lists permuted: standalone components, marketplaces,
      plugins, bundled components and advertised tools. */
  ghost predicate Shuffled(i: Input, j: Input)
  {
    && i.installation == j.installation
    && i.gaps == j.gaps
    && multiset(i.targets) == multiset(j.targets)
    && multiset(Map(ShapeOf(), Standalone(i))) == multiset(Map(ShapeOf(), Standalone(j)))
    && multiset(Map(PluginShapeOf(), i.plugins)) == multiset(Map(PluginShapeOf(), j.plugins))
    && multiset(i.marketplaces) == multiset(j.marketplaces)
  }

  // ---------- what depends on shapes only ----------

  datatype OwnedShape = OwnedShape(shape: ComponentShape, owner: string, inherits: bool)

  function OwnedShapeOf(): Owned -> OwnedShape
  {
    (o: Owned) => OwnedShape(ShapeOf()(o.component), o.owner, o.inherits)
  }

  lemma OwnedByShape(g: Context, o: Owned, w: Owned)
    requires OwnedShapeOf()(o) == OwnedShapeOf()(w)
    ensures ComponentNode(g, o) == ComponentNode(g, w)
    ensures NodesOf(g)(o) == NodesOf(g)(w)
    ensures EdgesOf(g)(o) == EdgesOf(g)(w)
    ensures BucketOf(o.component) == BucketOf(w.component)
  {
    hide MakeEdge;
    var c, d := o.component, w.component;
    assert ShapeOf()(c) == ShapeOf()(d);
    assert ShapeOf()(c).tools == multiset(Tools(c)) && ShapeOf()(d).tools == multiset(Tools(d));
    SameNode(g, o, w);
    var node := ComponentNode(g, o);
    MapBag(ToolNode(g, node), Tools(c), Tools(d));
    MapBag(ProvidesEdge(g, node), Tools(c), Tools(d));
  }

  lemma SameNode(g: Context, o: Owned, w: Owned)
    requires OwnedShapeOf()(o) == OwnedShapeOf()(w)
    ensures ComponentNode(g, o) == ComponentNode(g, w) && Enabled(o) == Enabled(w)
    ensures BucketOf(o.component) == BucketOf(w.component)
  {
    hide NodeId;
    var c, d := o.component, w.component;
    var x, y := Core(c), Core(d);
    assert ShapeOf()(c) == ShapeOf()(d);
    assert ShapeOf()(c).core == x && ShapeOf()(d).core == y;
    assert Label(c) == Label(x) && Kind(c) == Kind(x) && OwnFlags(c) == OwnFlags(x) && BucketOf(c) == BucketOf(x);
    assert Label(d) == Label(y) && Kind(d) == Kind(y) && OwnFlags(d) == OwnFlags(y) && BucketOf(d) == BucketOf(y);
  }

  function Lift(owner: string, inherits: bool): ComponentShape -> OwnedShape
  {
    (shape: ComponentShape) => OwnedShape(shape, owner, inherits)
  }

  lemma LiftOwned(owner: string, inherits: bool, cs: seq<Component>)
    ensures Map(OwnedShapeOf(), Map(Own(owner, inherits), cs)) == Map(Lift(owner, inherits), Map(ShapeOf(), cs))
  {
    hide ShapeOf;
  }

  /** The shapes one plugin contributes. */
  ghost function PluginOwnedShapes(g: Context): Plugin -> multiset<OwnedShape>
  {
    (p: Plugin) => multiset(Map(Lift(PluginId(g, p), Active(p)), Map(ShapeOf(), Components(p))))
  }

  lemma {:induction false} PluginOwnedAsSum(g: Context, plugins: seq<Plugin>)
    requires Injective(g.hex) && DistinctPlugins(plugins)
    ensures multiset(Map(OwnedShapeOf(), PluginOwned(g, plugins))) == BagSum(PluginOwnedShapes(g), plugins)
  {
    hide PluginId, Components, OwnedShapeOf, Own, Lift, ShapeOf;
    if plugins != [] {
      var front, p := plugins[..|plugins| - 1], plugins[|plugins| - 1];
      assert plugins == front + [p];
      DistinctPluginsFront(front, p);
      PluginOwnedAsSum(g, front);
      OwnEnablement(g, plugins, p);
      var mine := Map(Own(PluginId(g, p), Active(p)), Components(p));
      assert PluginOwned(g, plugins) == PluginOwned(g, front) + mine;
      MapConcat(OwnedShapeOf(), PluginOwned(g, front), mine);
      LiftOwned(PluginId(g, p), Active(p), Components(p));
      BagSumSnoc(PluginOwnedShapes(g), front, p);
    }
  }

  lemma PluginShapesAgree(g: Context, p: Plugin, q: Plugin)
    requires PluginShapeOf()(p) == PluginShapeOf()(q)
    ensures PluginNode(g)(p) == PluginNode(g)(q) && PluginId(g, p) == PluginId(g, q) && Active(p) == Active(q)
    ensures p.fromMarketplace == q.fromMarketplace && p.activeFor == q.activeFor
    ensures PluginKeyOf()(p) == PluginKeyOf()(q)
    ensures multiset(Map(ShapeOf(), Components(p))) == multiset(Map(ShapeOf(), Components(q)))
  {
    hide ShapeOf, Components, NodeId;
    var x := p.(skills := [], commands := [], subagents := [], hooks := [], servers := []);
    var y := q.(skills := [], commands := [], subagents := [], hooks := [], servers := []);
    assert x == y;
    assert PluginParts(g, p) == PluginParts(g, x) && PluginParts(g, q) == PluginParts(g, y);
  }

  /** A function of a plugin's shape sums to the same over shuffled plugins. */
  lemma PluginSums<B(!new)>(f: Plugin -> multiset<B>, h: Plugin -> multiset<B>, s: seq<Plugin>, t: seq<Plugin>)
    requires multiset(Map(PluginShapeOf(), s)) == multiset(Map(PluginShapeOf(), t))
    requires AgreeByShape(f, h, PluginShapeOf(), s, t)
    ensures BagSum(f, s) == BagSum(h, t)
  {
    hide PluginShapeOf, BagSum;
    BagSumPermuted(f, h, PluginShapeOf(), s, t);
  }

  lemma PluginMaps<B(!new)>(f: Plugin -> B, s: seq<Plugin>, t: seq<Plugin>)
    requires multiset(Map(PluginShapeOf(), s)) == multiset(Map(PluginShapeOf(), t))
    requires forall p, q {:trigger f(p), f(q)} :: PluginShapeOf()(p) == PluginShapeOf()(q) ==> f(p) == f(q)
    ensures multiset(Map(f, s)) == multiset(Map(f, t))
  {
    hide PluginShapeOf, BagSum, Map;
    PluginSums(Single(f), Single(f), s, t);
    BagSumOfMap(f, s);
    BagSumOfMap(f, t);
  }

  // ---------- shuffling keeps what keys and marketplaces say ----------

  lemma ShuffledPluginsDistinct(i: seq<Plugin>, j: seq<Plugin>)
    requires multiset(Map(PluginShapeOf(), i)) == multiset(Map(PluginShapeOf(), j)) && DistinctPlugins(i)
    ensures DistinctPlugins(j)
  {
    hide PluginShapeOf, PluginKeyOf, Map;
    forall p, q | PluginShapeOf()(p) == PluginShapeOf()(q) ensures PluginKeyOf()(p) == PluginKeyOf()(q) {
      PluginShapesAgree(Context((s: seq<string>) => "", ""), p, q);
    }
    PluginMaps(PluginKeyOf(), i, j);
    BagDecidesDuplicates(Map(PluginKeyOf(), i), Map(PluginKeyOf(), j));
  }

  /** No two marketplaces share the name. */
  ghost predicate Unshared(markets: seq<Marketplace>, name: string)
  {
    forall m, n :: m in markets && n in markets && m.name == n.name == name ==> m == n
  }

  /** No name that some plugin points at is shared by two marketplaces. */
  ghost predicate PointersClear(input: Input)
  {
    forall p :: p in input.plugins && p.fromMarketplace != "" ==> Unshared(input.marketplaces, p.fromMarketplace)
  }

  lemma {:induction false} MarketForMember(g: Context, markets: seq<Marketplace>, m: Marketplace)
    requires m in markets && Unshared(markets, m.name)
    ensures MarketFor(g, markets, m.name) == MarketNode(g)(m)
    decreases markets
  {
    var head, tail := markets[0], markets[1..];
    assert markets == [head] + tail;
    assert head in markets;
    if head.name != m.name {
      assert forall n :: n in tail ==> n in markets;
      MarketForMember(g, tail, m);
    }
  }

  lemma SameRegistered(i: seq<Marketplace>, j: seq<Marketplace>, name: string)
    requires multiset(i) == multiset(j)
    ensures InventoryGraph.Registered(i, name) == InventoryGraph.Registered(j, name)
  {
    SameMembers(i, j);
  }

  lemma ShuffledMarkets(g: Context, i: seq<Marketplace>, j: seq<Marketplace>, name: string)
    requires multiset(i) == multiset(j) && Unshared(i, name)
    ensures MarketFor(g, i, name) == MarketFor(g, j, name)
  {
    hide MarketFor;
    SameMembers(i, j);
    SameRegistered(i, j, name);
    if InventoryGraph.Registered(i, name) {
      var m :| m in i && m.name == name;
      MarketForMember(g, i, m);
      MarketForMember(g, j, m);
    } else {
      GraphBuilder.UnregisteredIsMinted(g, i, name);
      GraphBuilder.UnregisteredIsMinted(g, j, name);
    }
  }

  /** A marketplace node is minted for exactly the unregistered names plugins point at. */
  lemma {:induction false} MintedMember(markets: seq<Marketplace>, plugins: seq<Plugin>, name: string)
    ensures NoDuplicates(Minted(markets, plugins))
    ensures name in Minted(markets, plugins) <==>
      name != "" && !InventoryGraph.Registered(markets, name) && exists p :: p in plugins && p.fromMarketplace == name
  {
    hide InventoryGraph.Registered;
    if plugins != [] {
      var n := |plugins| - 1;
      MintedMember(markets, plugins[..n], name);
      assert plugins == plugins[..n] + [plugins[n]];
    }
  }

  lemma ShuffledMinted(i: Input, j: Input)
    requires Shuffled(i, j)
    ensures multiset(Minted(i.marketplaces, i.plugins)) == multiset(Minted(j.marketplaces, j.plugins))
  {
    hide Minted, PluginShapeOf, ShapeOf, Standalone, InventoryGraph.Registered;
    forall name ensures name in Minted(i.marketplaces, i.plugins) <==> name in Minted(j.marketplaces, j.plugins) {
      MintedMember(i.marketplaces, i.plugins, name);
      MintedMember(j.marketplaces, j.plugins, name);
      SameRegistered(i.marketplaces, j.marketplaces, name);
      if exists p :: p in i.plugins && p.fromMarketplace == name { SamePointers(i.plugins, j.plugins, name); }
      if exists p :: p in j.plugins && p.fromMarketplace == name { SamePointers(j.plugins, i.plugins, name); }
    }
    MintedMember(i.marketplaces, i.plugins, "");
    MintedMember(j.marketplaces, j.plugins, "");
    NoDuplicatesSameBag(Minted(i.marketplaces, i.plugins), Minted(j.marketplaces, j.plugins));
  }

  lemma SamePointers(s: seq<Plugin>, t: seq<Plugin>, name: string)
    requires multiset(Map(PluginShapeOf(), s)) == multiset(Map(PluginShapeOf(), t))
    requires exists p :: p in s && p.fromMarketplace == name
    ensures exists p :: p in t && p.fromMarketplace == name
  {
    hide PluginShapeOf;
    var p :| p in s && p.fromMarketplace == name;
    MapBagMember(PluginShapeOf(), s, PluginShapeOf()(p));
    MapBagMember(PluginShapeOf(), t, PluginShapeOf()(p));
    var q :| q in t && PluginShapeOf()(q) == PluginShapeOf()(p);
    PluginShapesAgree(Context((s: seq<string>) => "", ""), p, q);
  }

  // ---------- equal bags ----------

  lemma ShuffledOwned(g: Context, i: Input, j: Input)
    requires Injective(g.hex) && Shuffled(i, j) && DistinctPlugins(i.plugins)
    ensures multiset(Map(OwnedShapeOf(), PartsOf(g, i).owned)) == multiset(Map(OwnedShapeOf(), PartsOf(g, j).owned))
  {
    hide OwnedShapeOf, ShapeOf, PluginShapeOf, Lift, Own, Standalone, Components, Map, PluginOwned, PluginId;
    ShuffledPluginsDistinct(i.plugins, j.plugins);
    PluginOwnedAsSum(g, i.plugins);
    PluginOwnedAsSum(g, j.plugins);
    forall p, q | PluginShapeOf()(p) == PluginShapeOf()(q) ensures PluginOwnedShapes(g)(p) == PluginOwnedShapes(g)(q) {
      PluginShapesAgree(g, p, q);
      MapBag(Lift(PluginId(g, p), Active(p)), Map(ShapeOf(), Components(p)), Map(ShapeOf(), Components(q)));
    }
    PluginSums(PluginOwnedShapes(g), PluginOwnedShapes(g), i.plugins, j.plugins);
    LiftOwned("", true, Standalone(i));
    LiftOwned("", true, Standalone(j));
    MapBag(Lift("", true), Map(ShapeOf(), Standalone(i)), Map(ShapeOf(), Standalone(j)));
    MapConcat(OwnedShapeOf(), Map(Own("", true), Standalone(i)), PluginOwned(g, i.plugins));
    MapConcat(OwnedShapeOf(), Map(Own("", true), Standalone(j)), PluginOwned(g, j.plugins));
  }

  lemma OwnedSums<B(!new)>(f: Owned -> multiset<B>, s: seq<Owned>, t: seq<Owned>)
    requires multiset(Map(OwnedShapeOf(), s)) == multiset(Map(OwnedShapeOf(), t))
    requires forall o, w {:trigger f(o), f(w)} :: OwnedShapeOf()(o) == OwnedShapeOf()(w) ==> f(o) == f(w)
    ensures BagSum(f, s) == BagSum(f, t)
  {
    hide OwnedShapeOf, BagSum;
    BagSumPermuted(f, f, OwnedShapeOf(), s, t);
  }

  lemma ShuffledNodes(g: Context, i: Input, j: Input)
    requires Injective(g.hex) && Shuffled(i, j) && DistinctKeys(i)
    ensures NodeBag(g, PartsOf(g, i)) == NodeBag(g, PartsOf(g, j))
  {
    hide NodesOf, OwnedShapeOf, ShapeOf, PluginShapeOf, MarketNode, PluginNode, MintedNode, Minted, Map, BagSum,
         Standalone, Components, PluginOwned, DistinctComponents, InstallationNode;
    var a, b := PartsOf(g, i), PartsOf(g, j);
    ShuffledOwned(g, i, j);
    forall o, w | OwnedShapeOf()(o) == OwnedShapeOf()(w)
      ensures NodesOf(g)(o) == NodesOf(g)(w)
    {
      OwnedByShape(g, o, w);
    }
    OwnedSums(NodesOf(g), a.owned, b.owned);
    MapBag(MarketNode(g), i.marketplaces, j.marketplaces);
    forall p, q | PluginShapeOf()(p) == PluginShapeOf()(q)
      ensures PluginNode(g)(p) == PluginNode(g)(q)
    {
      PluginShapesAgree(g, p, q);
    }
    PluginMaps(PluginNode(g), i.plugins, j.plugins);
    ShuffledMinted(i, j);
    MapBag(MintedNode(g), Minted(i.marketplaces, i.plugins), Minted(j.marketplaces, j.plugins));
  }

  lemma ShuffledPlainEdges(g: Context, i: Input, j: Input)
    requires Injective(g.hex) && Shuffled(i, j) && DistinctKeys(i) && PointersClear(i)
    ensures PlainEdgeBag(g, PartsOf(g, i)) == PlainEdgeBag(g, PartsOf(g, j))
  {
    hide EdgesOf, OwnedShapeOf, ShapeOf, PluginShapeOf, Map, BagSum, MakeEdge, MarketFor,
         Standalone, Components, PluginOwned, DistinctComponents, DistinctPlugins, PluginId;
    var a, b := PartsOf(g, i), PartsOf(g, j);
    ShuffledOwned(g, i, j);
    forall o, w | OwnedShapeOf()(o) == OwnedShapeOf()(w)
      ensures EdgesOf(g)(o) == EdgesOf(g)(w)
    {
      OwnedByShape(g, o, w);
    }
    OwnedSums(EdgesOf(g), a.owned, b.owned);
    forall p, q | p in i.plugins && q in j.plugins && PluginShapeOf()(p) == PluginShapeOf()(q)
      ensures PluginEdges(g, i.marketplaces)(p) == PluginEdges(g, j.marketplaces)(q)
    {
      PluginShapesAgree(g, p, q);
      if p.fromMarketplace != "" { ShuffledMarkets(g, i.marketplaces, j.marketplaces, p.fromMarketplace); }
    }
    PluginSums(PluginEdges(g, i.marketplaces), PluginEdges(g, j.marketplaces), i.plugins, j.plugins);
  }

  ghost function FiledNode(g: Context, b: Bucket): Owned -> multiset<Node>
  {
    (o: Owned) => if BucketOf(o.component) == b then multiset{ComponentNode(g, o)} else multiset{}
  }

  lemma {:induction false} FiledAsSum(g: Context, b: Bucket, owned: seq<Owned>)
    ensures multiset(FiledComponents(g, b, owned)) == BagSum(FiledNode(g, b), owned)
  {
    hide ComponentNode, BucketOf;
    if owned != [] { FiledAsSum(g, b, owned[..|owned| - 1]); }
  }

  lemma ShuffledFiled(g: Context, i: Input, j: Input, b: Bucket)
    requires Injective(g.hex) && Shuffled(i, j) && DistinctKeys(i)
    ensures multiset(Filed(g, b, PartsOf(g, i))) == multiset(Filed(g, b, PartsOf(g, j)))
  {
    hide OwnedShapeOf, ShapeOf, PluginShapeOf, MarketNode, PluginNode, MintedNode, Minted, Map, BagSum, FiledComponents,
         Standalone, Components, PluginOwned, DistinctComponents;
    MapBag(MarketNode(g), i.marketplaces, j.marketplaces);
    if b == PluginBucket {
      forall p, q | PluginShapeOf()(p) == PluginShapeOf()(q)
        ensures PluginNode(g)(p) == PluginNode(g)(q)
      {
        PluginShapesAgree(g, p, q);
      }
      PluginMaps(PluginNode(g), i.plugins, j.plugins);
    } else if b == MarketplaceBucket {
      ShuffledMinted(i, j);
      MapBag(MintedNode(g), Minted(i.marketplaces, i.plugins), Minted(j.marketplaces, j.plugins));
    } else {
      ShuffledFiledComponents(g, i, j, b);
    }
  }

  lemma ShuffledFiledComponents(g: Context, i: Input, j: Input, b: Bucket)
    requires Injective(g.hex) && Shuffled(i, j) && DistinctKeys(i)
    ensures multiset(FiledComponents(g, b, PartsOf(g, i).owned)) == multiset(FiledComponents(g, b, PartsOf(g, j).owned))
  {
    hide OwnedShapeOf, PartsOf, FiledComponents, Shuffled, DistinctComponents, BagSum, Map, ComponentNode, BucketOf;
    ShuffledOwned(g, i, j);
    forall o, w | OwnedShapeOf()(o) == OwnedShapeOf()(w)
      ensures FiledNode(g, b)(o) == FiledNode(g, b)(w)
    {
      OwnedByShape(g, o, w);
    }
    OwnedSums(FiledNode(g, b), PartsOf(g, i).owned, PartsOf(g, j).owned);
    FiledAsSum(g, b, PartsOf(g, i).owned);
    FiledAsSum(g, b, PartsOf(g, j).owned);
  }

  lemma ShuffledEdges(g: Context, i: Input, j: Input)
    requires Injective(g.hex) && Shuffled(i, j) && DistinctKeys(i) && PointersClear(i)
    ensures EdgeBag(g, PartsOf(g, i)) == EdgeBag(g, PartsOf(g, j))
  {
    hide PlainEdgeBag, PartsOf, Shuffled, DistinctKeys, PointersClear, Filed, CollisionMaker, Collisions, BagSum;
    ShuffledPlainEdges(g, i, j);
    forall b: Bucket ensures CollisionsOf(g, PartsOf(g, i))(b) == CollisionsOf(g, PartsOf(g, j))(b) {
      ShuffledFiled(g, i, j, b);
      CollisionsPermuted(CollisionMaker(g, b), Filed(g, b, PartsOf(g, i)), Filed(g, b, PartsOf(g, j)));
    }
    BagSumAgree(CollisionsOf(g, PartsOf(g, i)), CollisionsOf(g, PartsOf(g, j)), BUCKETS);
  }

  lemma {:induction false} BagSumAgree<A(!new), B(!new)>(f: A -> multiset<B>, h: A -> multiset<B>, s: seq<A>)
    requires forall x {:trigger f(x)} {:trigger h(x)} :: f(x) == h(x)
    ensures BagSum(f, s) == BagSum(h, s)
  {
    if s != [] { BagSumAgree(f, h, s[..|s| - 1]); }
  }

  // ---------- the theorem ----------

  lemma OneArrangementOfNodes(g: Context, input: Input, s: seq<Node>, t: seq<Node>)
    requires Injective(g.hex) && DistinctKeys(input)
    requires Ordered(NodeLeq, s) && Ordered(NodeLeq, t)
    requires multiset(s) == multiset(t) == NodeBag(g, PartsOf(g, input))
    ensures s == t
  {
    hide NodeBag, PartsOf, DistinctKeys;
    forall x, y | x in s && y in s && NodeLeq(x, y) && NodeLeq(y, x) ensures x == y {
      StringLeqAntisymmetric(x.id, y.id);
      assert x in multiset(s) && y in multiset(s);
      NodeIdsUnique(g, input, x, y);
    }
    OrderedUnique(NodeLeq, s, t);
  }

  lemma OneArrangementOfEdges(g: Context, parts: Parts, s: seq<Edge>, t: seq<Edge>)
    requires Injective(g.hex)
    requires Ordered(EdgeLeq, s) && Ordered(EdgeLeq, t)
    requires multiset(s) == multiset(t) == EdgeBag(g, parts)
    ensures s == t
  {
    hide EdgeBag;
    forall x, y | x in s && y in s && EdgeLeq(x, y) && EdgeLeq(y, x) ensures x == y {
      StringLeqAntisymmetric(x.id, y.id);
      assert x in multiset(s) && y in multiset(s);
      EdgeIdsUnique(g, parts, x, y);
    }
    OrderedUnique(EdgeLeq, s, t);
  }

  /** With injective digests, distinct descriptor keys and no shared name that a plugin points at, every
      result for a shuffled input is the same result: nodes, edges, fingerprint and snapshot id. */
  lemma SnapshotIgnoresOrder(hex: Hex, i: Input, j: Input, now: int, r: Outcome, s: Outcome)
    requires Injective(hex) && DistinctKeys(i) && PointersClear(i) && Shuffled(i, j)
    requires IsOutcome(hex, i, now, r) && IsOutcome(hex, j, now, s)
    ensures r == s
  {
    hide NodeBag, EdgeBag, PartsOf, DistinctKeys, PointersClear, FingerprintParts;
    SameLength(i.targets, j.targets);
    SameMembers(i.targets, j.targets);
    if r.Built? && s.Built? {
      SnapshotsAgree(hex, i, j, now, r.snapshot, s.snapshot);
    }
  }

  lemma SnapshotsAgree(hex: Hex, i: Input, j: Input, now: int, s: Snapshot, t: Snapshot)
    requires Injective(hex) && DistinctKeys(i) && PointersClear(i) && Shuffled(i, j)
    requires IsSnapshot(hex, i, now, s) && IsSnapshot(hex, j, now, t)
    ensures s == t
  {
    hide NodeBag, EdgeBag, PartsOf, DistinctKeys, PointersClear, FingerprintParts;
    var g := Context(hex, i.installation);
    ShuffledNodes(g, i, j);
    ShuffledEdges(g, i, j);
    OneArrangementOfNodes(g, i, s.nodes, t.nodes);
    OneArrangementOfEdges(g, PartsOf(g, i), s.edges, t.edges);
  }
}
