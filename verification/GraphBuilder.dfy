/** BuildInventorySnapshot (internal/claudeadapter/inventory.go) as the source runs it: shared
    node and edge lists, by-name groups, enabled owners and canonical marketplaces, all
    changed in place, then collisions, sorting and fingerprinting. */
module GraphBuilder {
  import opened Ordering
  import opened CoverageGaps
  import opened InventoryTypes
  import opened GraphCollisions
  import opened InventoryGraph

  type ByName = map<string, seq<Node>>

  function GroupAfter(groups: ByName, node: Node): ByName
  {
    groups[node.name := (if node.name in groups then groups[node.name] else []) + [node]]
  }

  lemma {:induction false} NoneOfName(nodes: seq<Node>, name: string)
    requires forall n :: n in nodes ==> n.name != name
    ensures OfNames(nodes, {name}) == []
  {
    if nodes != [] {
      assert nodes[|nodes| - 1] in nodes;
      NoneOfName(nodes[..|nodes| - 1], name);
    }
  }

  lemma GroupsGrow(nodes: seq<Node>, node: Node, groups: ByName)
    requires Groups(nodes, groups)
    ensures Groups(nodes + [node], GroupAfter(groups, node))
  {
    if node.name !in groups { NoneOfName(nodes, node.name); }
    forall name | name in GroupAfter(groups, node)
      ensures GroupAfter(groups, node)[name] == OfNames(nodes + [node], {name})
    {
      OfNamesSnoc(nodes, node, {name});
    }
  }

  /** The by-name groups of every bucket hold what has been filed there. */
  ghost predicate Filing(g: Context, parts: Parts, byName: map<Bucket, ByName>)
  {
    forall b :: b in byName && Groups(Filed(g, b, parts), byName[b])
  }

  function FileAfter(byName: map<Bucket, ByName>, b: Bucket, node: Node): map<Bucket, ByName>
    requires b in byName
  {
    byName[b := GroupAfter(byName[b], node)]
  }

  lemma FilingGrows(g: Context, parts: Parts, after: Parts, byName: map<Bucket, ByName>, b: Bucket, node: Node)
    requires Filing(g, parts, byName) && b in byName
    requires Filed(g, b, after) == Filed(g, b, parts) + [node]
    requires forall c :: c != b ==> Filed(g, c, after) == Filed(g, c, parts)
    ensures Filing(g, after, FileAfter(byName, b, node))
  {
    GroupsGrow(Filed(g, b, parts), node, byName[b]);
  }

  // ---------- how the specified bags grow ----------

  lemma ComponentFiled(g: Context, owned: seq<Owned>, o: Owned, b: Bucket)
    ensures FiledComponents(g, b, owned + [o]) ==
      FiledComponents(g, b, owned) + if BucketOf(o.component) == b then [ComponentNode(g, o)] else []
  {
    assert (owned + [o])[..|owned|] == owned;
  }

  function WithComponent(parts: Parts, o: Owned): Parts
  {
    parts.(owned := parts.owned + [o])
  }

  lemma PushOut<T>(a: multiset<T>, x: multiset<T>, b: multiset<T>)
    ensures (a + x) + b == (a + b) + x
  {
  }

  lemma ComponentGrows(g: Context, parts: Parts, o: Owned)
    ensures NodeBag(g, WithComponent(parts, o)) == NodeBag(g, parts) + NodesOf(g)(o)
    ensures PlainEdgeBag(g, WithComponent(parts, o)) == PlainEdgeBag(g, parts) + EdgesOf(g)(o)
  {
    hide NodesOf, EdgesOf, PluginEdges, MarketNode, PluginNode, MintedNode, InstallationNode, BagSum, Minted;
    BagSumSnoc(NodesOf(g), parts.owned, o);
    BagSumSnoc(EdgesOf(g), parts.owned, o);
    var x := NodesOf(g)(o);
    var installed := multiset{InstallationNode(g)} + BagSum(NodesOf(g), parts.owned);
    var markets := multiset(Map(MarketNode(g), parts.marketplaces));
    var plugins := multiset(Map(PluginNode(g), parts.plugins));
    PushOut(installed, x, markets);
    PushOut(installed + markets, x, plugins);
    PushOut(installed + markets + plugins, x, multiset(Map(MintedNode(g), Minted(parts.marketplaces, parts.plugins))));
    PushOut(BagSum(EdgesOf(g), parts.owned), EdgesOf(g)(o), BagSum(PluginEdges(g, parts.marketplaces), parts.plugins));
  }

  lemma MapSnoc<A, B>(f: A -> B, s: seq<A>, x: A)
    ensures Map(f, s + [x]) == Map(f, s) + [f(x)]
    ensures multiset(Map(f, s + [x])) == multiset(Map(f, s)) + multiset{f(x)}
  {
    assert Map(f, s + [x]) == Map(f, s) + [f(x)];
  }

  function WithMarket(parts: Parts, m: Marketplace): Parts
  {
    parts.(marketplaces := parts.marketplaces + [m])
  }

  lemma MarketGrows(g: Context, parts: Parts, m: Marketplace)
    requires parts.plugins == []
    ensures NodeBag(g, WithMarket(parts, m)) == NodeBag(g, parts) + multiset{MarketNode(g)(m)}
    ensures PlainEdgeBag(g, WithMarket(parts, m)) == PlainEdgeBag(g, parts)
    ensures Filed(g, MarketplaceBucket, WithMarket(parts, m)) == Filed(g, MarketplaceBucket, parts) + [MarketNode(g)(m)]
  {
    hide NodesOf, EdgesOf, PluginEdges, MarketNode, PluginNode, MintedNode, InstallationNode;
    MapSnoc(MarketNode(g), parts.marketplaces, m);
    assert Minted(parts.marketplaces, []) == [] && Minted(parts.marketplaces + [m], []) == [];
    assert Map(PluginNode(g), parts.plugins) == [] && Map(MintedNode(g), []) == [];
    assert BagSum(PluginEdges(g, parts.marketplaces), []) == multiset{};
    assert BagSum(PluginEdges(g, parts.marketplaces + [m]), []) == multiset{};
  }

  /** A plugin whose marketplace node already exists, or that names none. */
  function WithPlugin(parts: Parts, p: Plugin): Parts
  {
    parts.(plugins := parts.plugins + [p])
  }

  predicate Mints(parts: Parts, name: string)
  {
    name != "" && !InventoryGraph.Registered(parts.marketplaces, name)
    && name !in Minted(parts.marketplaces, parts.plugins)
  }

  lemma MintedGrows(parts: Parts, p: Plugin)
    ensures Minted(parts.marketplaces, parts.plugins + [p]) ==
      Minted(parts.marketplaces, parts.plugins) + if Mints(parts, p.fromMarketplace) then [p.fromMarketplace] else []
  {
    assert (parts.plugins + [p])[..|parts.plugins|] == parts.plugins;
  }

  ghost function MintedBag(g: Context, parts: Parts, name: string): multiset<Node>
  {
    if Mints(parts, name) then multiset{MintedNode(g)(name)} else multiset{}
  }

  lemma PluginGrows(g: Context, parts: Parts, p: Plugin)
    ensures NodeBag(g, WithPlugin(parts, p)) ==
      NodeBag(g, parts) + (multiset{PluginNode(g)(p)} + MintedBag(g, parts, p.fromMarketplace))
    ensures PlainEdgeBag(g, WithPlugin(parts, p)) == PlainEdgeBag(g, parts) + PluginEdges(g, parts.marketplaces)(p)
  {
    hide NodesOf, EdgesOf, PluginEdges, MarketNode, PluginNode, MintedNode, InstallationNode, BagSum, Minted, Mints;
    MapSnoc(PluginNode(g), parts.plugins, p);
    MintedGrows(parts, p);
    var minted := Minted(parts.marketplaces, parts.plugins);
    MapSnoc(MintedNode(g), minted, p.fromMarketplace);
    BagSumSnoc(PluginEdges(g, parts.marketplaces), parts.plugins, p);
    var rest := multiset{InstallationNode(g)} + BagSum(NodesOf(g), parts.owned)
      + multiset(Map(MarketNode(g), parts.marketplaces));
    assert minted + [] == minted;
    BothGrow(rest, multiset(Map(PluginNode(g), parts.plugins)), multiset{PluginNode(g)(p)},
             multiset(Map(MintedNode(g), minted)), MintedBag(g, parts, p.fromMarketplace));
  }

  lemma BothGrow<T>(a: multiset<T>, b: multiset<T>, x: multiset<T>, c: multiset<T>, y: multiset<T>)
    ensures a + (b + x) + (c + y) == a + b + c + (x + y)
  {
  }

  lemma PluginFiled(g: Context, parts: Parts, p: Plugin)
    ensures Filed(g, PluginBucket, WithPlugin(parts, p)) == Filed(g, PluginBucket, parts) + [PluginNode(g)(p)]
    ensures Filed(g, MarketplaceBucket, WithPlugin(parts, p)) == Filed(g, MarketplaceBucket, parts)
      + if Mints(parts, p.fromMarketplace) then [MintedNode(g)(p.fromMarketplace)] else []
  {
    hide MarketNode, PluginNode, MintedNode, Minted, Mints;
    MapSnoc(PluginNode(g), parts.plugins, p);
    MintedGrows(parts, p);
    var minted := Minted(parts.marketplaces, parts.plugins);
    MapSnoc(MintedNode(g), minted, p.fromMarketplace);
    assert minted + [] == minted;
  }

  lemma {:induction false} MarketForSnoc(g: Context, markets: seq<Marketplace>, m: Marketplace, name: string)
    ensures MarketFor(g, markets + [m], name) ==
      if !InventoryGraph.Registered(markets, name) && m.name == name then MarketNode(g)(m)
      else MarketFor(g, markets, name)
  {
    if markets == [] {
      assert ([] + [m])[1..] == [];
    } else {
      assert (markets + [m])[1..] == markets[1..] + [m];
      MarketForSnoc(g, markets[1..], m, name);
      assert markets == [markets[0]] + markets[1..];
    }
  }

  lemma {:induction false} UnregisteredIsMinted(g: Context, markets: seq<Marketplace>, name: string)
    requires !InventoryGraph.Registered(markets, name)
    ensures MarketFor(g, markets, name) == MintedNode(g)(name)
  {
    if markets != [] {
      assert markets[0] in markets;
      assert forall m :: m in markets[1..] ==> m in markets;
      UnregisteredIsMinted(g, markets[1..], name);
    }
  }

  /** The canonical marketplace nodes: registered names and names minted so far. */
  ghost predicate Canonical(g: Context, parts: Parts, marketByName: map<string, Node>)
  {
    && (forall name :: name in marketByName <==>
         InventoryGraph.Registered(parts.marketplaces, name) || name in Minted(parts.marketplaces, parts.plugins))
    && (forall name :: name in marketByName ==> marketByName[name] == MarketFor(g, parts.marketplaces, name))
  }

  ghost predicate Owners(g: Context, parts: Parts, enabledOwners: set<string>)
  {
    forall id :: id in enabledOwners <==> EnabledIn(g, parts.plugins, id)
  }

  lemma OwnersGrow(g: Context, parts: Parts, p: Plugin, enabledOwners: set<string>)
    requires Owners(g, parts, enabledOwners)
    ensures Owners(g, WithPlugin(parts, p), OwnersAfter(g, p, enabledOwners))
  {
  }

  /** What the fields of a builder hold for the parts added so far. */
  ghost predicate Keeps(g: Context, parts: Parts, nodes: seq<Node>, edges: seq<Edge>, byName: map<Bucket, ByName>,
                        enabledOwners: set<string>, marketByName: map<string, Node>)
  {
    && multiset(nodes) == NodeBag(g, parts)
    && multiset(edges) == PlainEdgeBag(g, parts)
    && Filing(g, parts, byName)
    && Owners(g, parts, enabledOwners)
    && Canonical(g, parts, marketByName)
  }

  // ---------- the builder ----------

  class Builder {
    const g: Context
    var nodes: seq<Node>
    var edges: seq<Edge>
    var byName: map<Bucket, ByName>
    var enabledOwners: set<string>
    var marketByName: map<string, Node>
    ghost var parts: Parts

    ghost predicate Valid()
      reads this
    {
      Keeps(g, parts, nodes, edges, byName, enabledOwners, marketByName)
    }

    constructor (g: Context)
      ensures Valid() && this.g == g && parts == Parts([], [], [])
    {
      this.g := g;
      nodes := [InstallationNode(g)];
      edges := [];
      byName := map b: Bucket | b in BUCKETS :: map[];
      enabledOwners := {};
      marketByName := map[];
      parts := Parts([], [], []);
      new;
      EmptyParts(g, byName);
    }

    /** addSkill, addCommand, addSubagent, addHook and addMCPServer: the node, its enablement,
        a server's tools in sorted order, and the bundle edge from its owner if it has one. */
    method AddComponent(c: Component, owner: string)
      requires Valid()
      modifies this
      ensures Valid()
      ensures parts ==
        WithComponent(old(parts), Owned(c, owner, owner == "" || EnabledIn(g, old(parts).plugins, owner)))
    {
      hide NodeBag, PlainEdgeBag, NodesOf, EdgesOf, ComponentNode, Filing, Filed, EnabledIn, Canonical, FileAfter;
      var o := Owned(c, owner, owner == "" || owner in enabledOwners);
      ComponentKeeps(g, parts, o, byName, enabledOwners, marketByName);
      byName := FileAfter(byName, BucketOf(c), ComponentNode(g, o));
      var newNodes, newEdges := ComponentItems(g, o);
      nodes := nodes + newNodes;
      edges := edges + newEdges;
      parts := WithComponent(parts, o);
    }

    /** One entry of input.Marketplaces; the first of a name becomes canonical. */
    method AddMarketplace(m: Marketplace)
      requires Valid() && parts.plugins == []
      modifies this
      ensures Valid() && parts == WithMarket(old(parts), m)
    {
      hide NodeBag, PlainEdgeBag, MarketNode, Filing, Filed, EnabledIn, Canonical, FileAfter;
      var node := MarketNode(g)(m);
      ghost var after := WithMarket(parts, m);
      MarketGrows(g, parts, m);
      MarketKeeps(g, parts, m, byName, enabledOwners, marketByName);
      nodes := nodes + [node];
      byName := FileAfter(byName, MarketplaceBucket, node);
      if m.name !in marketByName {
        marketByName := marketByName[m.name := node];
      }
      parts := after;
    }

    /** A plugin's own node, enablement and marketplace; its components follow. */
    method AddPluginNode(p: Plugin)
      requires Valid()
      modifies this
      ensures Valid() && parts == WithPlugin(old(parts), p)
    {
      hide Keeps, NodeBag, PlainEdgeBag, PluginNode, MintedNode, PluginEdges, Filing, Canonical, MarketFor;
      hide PluginId, MintedBag, Owners, WithPlugin;
      var node := PluginNode(g)(p);
      ghost var before := parts;
      KeptFiling(g, before, nodes, edges, byName, enabledOwners, marketByName);
      nodes := nodes + [node];
      PluginNodeId(g, p);
      if !p.cachedOnly && p.activeFor != "" {
        enabledOwners := enabledOwners + {node.id};
      }
      var minted;
      minted, byName, marketByName := MintIfUnknown(g, p, node, byName, marketByName, before);
      nodes := nodes + minted;
      var newEdges := PluginEdgeList(g, p, node, marketByName, before.marketplaces);
      edges := edges + newEdges;
      parts := WithPlugin(parts, p);
      PluginKeeps(g, before, p, old(nodes), old(edges), old(byName), old(enabledOwners), old(marketByName),
                  minted, newEdges, byName, marketByName);
    }

    method AddComponents(cs: seq<Component>, owner: string)
      requires Valid()
      modifies this
      ensures Valid()
      ensures parts == old(parts).(owned := old(parts).owned
        + Map(Own(owner, owner == "" || EnabledIn(g, old(parts).plugins, owner)), cs))
    {
      hide Builder.Valid, EnabledIn;
      ghost var own := Own(owner, owner == "" || EnabledIn(g, parts.plugins, owner));
      for i := 0 to |cs|
        invariant Valid()
        invariant parts == old(parts).(owned := old(parts).owned + Map(own, cs[..i]))
      {
        AddComponent(cs[i], owner);
        assert cs[..i + 1] == cs[..i] + [cs[i]];
        MapSnoc(own, cs[..i], cs[i]);
      }
      assert cs[..|cs|] == cs;
    }

    method AddPlugin(p: Plugin)
      requires Valid()
      modifies this
      ensures Valid()
      ensures parts == WithPlugin(old(parts), p).(owned := old(parts).owned
        + Map(Own(PluginId(g, p), EnabledIn(g, old(parts).plugins + [p], PluginId(g, p))), Components(p)))
    {
      hide Builder.Valid, EnabledIn, Map, PluginParts;
      ghost var owned := parts.owned;
      AddPluginNode(p);
      var id := PluginId(g, p);
      assert id != "";
      ghost var own := Own(id, EnabledIn(g, parts.plugins, id));
      AddComponents(p.skills, id);
      AddComponents(p.commands, id);
      AddComponents(p.subagents, id);
      AddComponents(p.hooks, id);
      AddComponents(p.servers, id);
      MapFive(own, p.skills, p.commands, p.subagents, p.hooks, p.servers);
      assert parts.owned == owned + Map(own, Components(p));
    }

    /** Everything in the input, in the source's order. */
    method AddAll(input: Input)
      requires Valid() && parts == Parts([], [], [])
      modifies this
      ensures Valid() && parts == PartsOf(g, input)
    {
      hide Builder.Valid, EnabledIn, Map, PluginOwned;
      AddStandalone(input);
      AddMarketplaces(input.marketplaces);
      ghost var standalone := parts.owned;
      assert PluginOwned(g, []) == [] by { PluginOwnedNone(g); }
      for i := 0 to |input.plugins|
        invariant Valid()
        invariant parts ==
          Parts(standalone + PluginOwned(g, input.plugins[..i]), input.marketplaces, input.plugins[..i])
      {
        AddPlugin(input.plugins[i]);
        PluginOwnedSnoc(g, input.plugins[..i], input.plugins[i]);
        assert input.plugins[..i + 1] == input.plugins[..i] + [input.plugins[i]];
      }
      assert input.plugins[..|input.plugins|] == input.plugins;
    }

    method AddStandalone(input: Input)
      requires Valid() && parts == Parts([], [], [])
      modifies this
      ensures Valid() && parts == Parts(Map(Own("", true), Standalone(input)), [], [])
    {
      hide Builder.Valid, EnabledIn, Map;
      AddComponents(input.skills, "");
      AddComponents(input.commands, "");
      AddComponents(input.subagents, "");
      AddComponents(input.hooks, "");
      AddComponents(input.servers, "");
      MapFive(Own("", true), input.skills, input.commands, input.subagents, input.hooks, input.servers);
    }

    method AddMarketplaces(marketplaces: seq<Marketplace>)
      requires Valid() && parts.marketplaces == [] && parts.plugins == []
      modifies this
      ensures Valid() && parts == Parts(old(parts).owned, marketplaces, [])
    {
      hide Builder.Valid;
      for i := 0 to |marketplaces|
        invariant Valid()
        invariant parts == Parts(old(parts).owned, marketplaces[..i], [])
      {
        AddMarketplace(marketplaces[i]);
        assert marketplaces[..i + 1] == marketplaces[..i] + [marketplaces[i]];
      }
      assert marketplaces[..|marketplaces|] == marketplaces;
    }

    /** The seven collision passes. */
    method AddCollisions()
      requires Valid()
      modifies this
      ensures nodes == old(nodes) && parts == old(parts)
      ensures multiset(edges) == EdgeBag(g, parts)
    {
      hide NodeBag, PlainEdgeBag, Filed, BagSum, Collisions, CollisionMaker, Canonical, Owners;
      ghost var collisions := CollisionsOf(g, parts);
      assert BagSum(collisions, []) == multiset{} by { BagSumNone(collisions); }
      for i := 0 to |BUCKETS|
        invariant nodes == old(nodes) && parts == old(parts) && byName == old(byName)
        invariant multiset(edges) == PlainEdgeBag(g, parts) + BagSum(collisions, BUCKETS[..i])
      {
        var b := BUCKETS[i];
        var found := CollisionEdges(CollisionMaker(g, b), byName[b], Filed(g, b, parts));
        BagSumSnoc(collisions, BUCKETS[..i], b);
        assert BUCKETS[..i + 1] == BUCKETS[..i] + [b];
        edges := edges + found;
      }
      assert BUCKETS[..|BUCKETS|] == BUCKETS;
    }
  }

  /** Files the plugin's node and, if nobody has seen its marketplace, a node for that. */
  method MintIfUnknown(g: Context, p: Plugin, node: Node, byName: map<Bucket, ByName>, marketByName: map<string, Node>,
                       ghost parts: Parts)
      returns (minted: seq<Node>, byName': map<Bucket, ByName>, marketByName': map<string, Node>)
    requires node == PluginNode(g)(p) && Filing(g, parts, byName) && Canonical(g, parts, marketByName)
    ensures multiset(minted) == MintedBag(g, parts, p.fromMarketplace)
    ensures Filing(g, WithPlugin(parts, p), byName') && Canonical(g, WithPlugin(parts, p), marketByName')
    ensures p.fromMarketplace != "" ==>
      p.fromMarketplace in marketByName'
      && marketByName'[p.fromMarketplace] == MarketFor(g, parts.marketplaces, p.fromMarketplace)
  {
    hide MintedNode, Mints, MarketFor, Minted, Filed, Groups, PluginNode;
    FilingPlugin(g, parts, p, byName);
    CanonicalPlugin(g, parts, p, marketByName);
    minted, byName', marketByName' := [], FileAfter(byName, PluginBucket, node), marketByName;
    if p.fromMarketplace != "" && p.fromMarketplace !in marketByName {
      var market := MintedNode(g)(p.fromMarketplace);
      minted := [market];
      byName' := FileAfter(byName', MarketplaceBucket, market);
      marketByName' := marketByName'[p.fromMarketplace := market];
    }
  }

  /** A plugin's own enablement and the marketplace it is configured in. */
  method PluginEdgeList(g: Context, p: Plugin, node: Node, marketByName: map<string, Node>,
                        ghost marketplaces: seq<Marketplace>)
      returns (edges: seq<Edge>)
    requires node == PluginNode(g)(p)
    requires p.fromMarketplace != "" ==>
      p.fromMarketplace in marketByName
      && marketByName[p.fromMarketplace] == MarketFor(g, marketplaces, p.fromMarketplace)
    ensures multiset(edges) == PluginEdges(g, marketplaces)(p)
  {
    hide MakeEdge, MarketFor;
    edges := [];
    if !p.cachedOnly && p.activeFor != "" {
      edges := edges + [MakeEdge(g, PluginEnabledLabel, node.id, p.activeFor)];
    }
    if p.fromMarketplace != "" {
      edges := edges + [MakeEdge(g, ConfiguredLabel, node.id, marketByName[p.fromMarketplace].id)];
    }
  }

  lemma KeptFiling(g: Context, parts: Parts, nodes: seq<Node>, edges: seq<Edge>, byName: map<Bucket, ByName>,
                   enabledOwners: set<string>, marketByName: map<string, Node>)
    requires Keeps(g, parts, nodes, edges, byName, enabledOwners, marketByName)
    ensures Filing(g, parts, byName) && Canonical(g, parts, marketByName)
  {
  }

  function OwnersAfter(g: Context, p: Plugin, enabledOwners: set<string>): set<string>
  {
    if Active(p) then enabledOwners + {PluginId(g, p)} else enabledOwners
  }

  lemma PluginKeeps(g: Context, parts: Parts, p: Plugin, nodes: seq<Node>, edges: seq<Edge>,
                    byName: map<Bucket, ByName>, enabledOwners: set<string>, marketByName: map<string, Node>,
                    minted: seq<Node>, newEdges: seq<Edge>, byName': map<Bucket, ByName>,
                    marketByName': map<string, Node>)
    requires Keeps(g, parts, nodes, edges, byName, enabledOwners, marketByName)
    requires multiset(minted) == MintedBag(g, parts, p.fromMarketplace)
    requires multiset(newEdges) == PluginEdges(g, parts.marketplaces)(p)
    requires Filing(g, WithPlugin(parts, p), byName') && Canonical(g, WithPlugin(parts, p), marketByName')
    ensures Keeps(g, WithPlugin(parts, p), nodes + [PluginNode(g)(p)] + minted, edges + newEdges, byName',
                  OwnersAfter(g, p, enabledOwners), marketByName')
  {
    hide NodeBag, PlainEdgeBag, MintedBag, PluginNode, PluginEdges, Filing, Canonical;
    PluginGrows(g, parts, p);
    OwnersGrow(g, parts, p, enabledOwners);
  }

  lemma PluginNodeId(g: Context, p: Plugin)
    ensures PluginNode(g)(p).id == PluginId(g, p)
  {
  }

  lemma BagSumNone<A, B(!new)>(f: A -> multiset<B>)
    ensures BagSum(f, []) == multiset{}
  {
  }

  lemma PluginOwnedNone(g: Context)
    ensures PluginOwned(g, []) == []
  {
  }

  lemma PluginOwnedSnoc(g: Context, front: seq<Plugin>, p: Plugin)
    ensures PluginOwned(g, front + [p]) ==
      PluginOwned(g, front) + Map(Own(PluginId(g, p), EnabledIn(g, front + [p], PluginId(g, p))), Components(p))
  {
    hide EnabledIn, Map, Own;
    assert (front + [p])[..|front|] == front;
  }

  lemma MapFive<A, B>(f: A -> B, a: seq<A>, b: seq<A>, c: seq<A>, d: seq<A>, e: seq<A>)
    ensures Map(f, a + b + c + d + e) == Map(f, a) + Map(f, b) + Map(f, c) + Map(f, d) + Map(f, e)
  {
    MapConcat(f, a, b);
    MapConcat(f, a + b, c);
    MapConcat(f, a + b + c, d);
    MapConcat(f, a + b + c + d, e);
  }

  /** Filing, owners and canonical marketplaces survive each kind of addition. */
  lemma ComponentKeeps(g: Context, parts: Parts, o: Owned, byName: map<Bucket, ByName>, enabledOwners: set<string>,
                       marketByName: map<string, Node>)
    requires Filing(g, parts, byName) && Owners(g, parts, enabledOwners) && Canonical(g, parts, marketByName)
    ensures BucketOf(o.component) in byName
    ensures Filing(g, WithComponent(parts, o), FileAfter(byName, BucketOf(o.component), ComponentNode(g, o)))
    ensures Owners(g, WithComponent(parts, o), enabledOwners) && Canonical(g, WithComponent(parts, o), marketByName)
    ensures NodeBag(g, WithComponent(parts, o)) == NodeBag(g, parts) + NodesOf(g)(o)
    ensures PlainEdgeBag(g, WithComponent(parts, o)) == PlainEdgeBag(g, parts) + EdgesOf(g)(o)
  {
    hide NodeBag, PlainEdgeBag, NodesOf, EdgesOf, ComponentNode, Filing, Filed, FileAfter, MarketFor, Minted, EnabledIn;
    ComponentGrows(g, parts, o);
    ComponentFiling(g, parts, o, byName);
  }

  lemma ComponentFiling(g: Context, parts: Parts, o: Owned, byName: map<Bucket, ByName>)
    requires Filing(g, parts, byName)
    ensures BucketOf(o.component) in byName
    ensures Filing(g, WithComponent(parts, o), FileAfter(byName, BucketOf(o.component), ComponentNode(g, o)))
  {
    hide ComponentNode, FileAfter, Groups, Filed;
    forall b: Bucket
      ensures Filed(g, b, WithComponent(parts, o)) ==
        Filed(g, b, parts) + if BucketOf(o.component) == b then [ComponentNode(g, o)] else []
    {
      FiledAfterComponent(g, parts, o, b);
    }
    FilingGrows(g, parts, WithComponent(parts, o), byName, BucketOf(o.component), ComponentNode(g, o));
  }

  lemma FiledAfterComponent(g: Context, parts: Parts, o: Owned, b: Bucket)
    ensures Filed(g, b, WithComponent(parts, o)) ==
      Filed(g, b, parts) + if BucketOf(o.component) == b then [ComponentNode(g, o)] else []
  {
    hide ComponentNode, FiledComponents, MarketNode, PluginNode, MintedNode, Minted;
    ComponentFiled(g, parts.owned, o, b);
    assert Filed(g, b, parts) + [] == Filed(g, b, parts);
  }

  lemma MarketKeeps(g: Context, parts: Parts, m: Marketplace, byName: map<Bucket, ByName>, enabledOwners: set<string>,
                    marketByName: map<string, Node>)
    requires parts.plugins == []
    requires Filing(g, parts, byName) && Owners(g, parts, enabledOwners) && Canonical(g, parts, marketByName)
    ensures MarketplaceBucket in byName
    ensures Filing(g, WithMarket(parts, m), FileAfter(byName, MarketplaceBucket, MarketNode(g)(m)))
    ensures Owners(g, WithMarket(parts, m), enabledOwners)
    ensures Canonical(g, WithMarket(parts, m),
      if m.name !in marketByName then marketByName[m.name := MarketNode(g)(m)] else marketByName)
  {
    hide NodeBag, PlainEdgeBag, MarketNode, Canonical;
    MarketGrows(g, parts, m);
    FilingGrows(g, parts, WithMarket(parts, m), byName, MarketplaceBucket, MarketNode(g)(m));
    CanonicalMarket(g, parts, m, marketByName);
  }

  lemma EmptyParts(g: Context, byName: map<Bucket, ByName>)
    requires byName == map b: Bucket | b in BUCKETS :: map[]
    ensures NodeBag(g, Parts([], [], [])) == multiset{InstallationNode(g)}
    ensures PlainEdgeBag(g, Parts([], [], [])) == multiset{}
    ensures Filing(g, Parts([], [], []), byName)
    ensures Minted([], []) == []
  {
    hide NodesOf, EdgesOf, PluginEdges, MarketNode, PluginNode, MintedNode, InstallationNode;
    forall b: Bucket ensures b in byName && Groups(Filed(g, b, Parts([], [], [])), byName[b]) {
      AllBuckets(b);
      NothingFiled(g, b);
    }
  }

  lemma NothingFiled(g: Context, b: Bucket)
    ensures Filed(g, b, Parts([], [], [])) == []
  {
    hide MarketNode, PluginNode, MintedNode;
  }

  lemma AllBuckets(b: Bucket)
    ensures b in BUCKETS
  {
    match b
    case SkillBucket => assert BUCKETS[0] == b;
    case CommandBucket => assert BUCKETS[1] == b;
    case SubagentBucket => assert BUCKETS[2] == b;
    case HookBucket => assert BUCKETS[3] == b;
    case McpBucket => assert BUCKETS[4] == b;
    case PluginBucket => assert BUCKETS[5] == b;
    case MarketplaceBucket => assert BUCKETS[6] == b;
  }

  /** The nodes and edges one component brings. */
  method ComponentItems(g: Context, o: Owned) returns (nodes: seq<Node>, edges: seq<Edge>)
    ensures multiset(nodes) == NodesOf(g)(o) && multiset(edges) == EdgesOf(g)(o)
  {
    var node := ComponentNode(g, o);
    nodes, edges := [node], [];
    if o.inherits && OwnFlags(o.component) {
      edges := [MakeEdge(g, EnabledLabel, node.id, InstallationId(g))];
    }
    StringLeqIsTotalOrder();
    var tools := SortBy(Tools(o.component), StringLeq);
    MapBag(ToolNode(g, node), tools, Tools(o.component));
    MapBag(ProvidesEdge(g, node), tools, Tools(o.component));
    var toolNodes, toolEdges := ToolItems(g, node, tools);
    nodes := nodes + toolNodes;
    edges := edges + toolEdges;
    if o.owner != "" {
      edges := edges + [MakeEdge(g, BundlesLabel, o.owner, node.id)];
    }
  }

  method ToolItems(g: Context, server: Node, tools: seq<string>) returns (nodes: seq<Node>, edges: seq<Edge>)
    ensures nodes == Map(ToolNode(g, server), tools) && edges == Map(ProvidesEdge(g, server), tools)
  {
    hide ToolNode, ProvidesEdge, MakeEdge;
    nodes, edges := [], [];
    for i := 0 to |tools|
      invariant nodes == Map(ToolNode(g, server), tools[..i]) && edges == Map(ProvidesEdge(g, server), tools[..i])
    {
      assert tools[..i + 1] == tools[..i] + [tools[i]];
      MapSnoc(ToolNode(g, server), tools[..i], tools[i]);
      MapSnoc(ProvidesEdge(g, server), tools[..i], tools[i]);
      ProvidesFrom(g, server, tools[i]);
      var toolNode := ToolNode(g, server)(tools[i]);
      nodes := nodes + [toolNode];
      edges := edges + [MakeEdge(g, ProvidesLabel, server.id, toolNode.id)];
    }
    assert tools[..|tools|] == tools;
  }

  lemma ProvidesFrom(g: Context, server: Node, tool: string)
    ensures ProvidesEdge(g, server)(tool) == MakeEdge(g, ProvidesLabel, server.id, ToolNode(g, server)(tool).id)
  {
    hide ToolNode, MakeEdge;
  }

  lemma CanonicalMarket(g: Context, parts: Parts, m: Marketplace, marketByName: map<string, Node>)
    requires parts.plugins == [] && Canonical(g, parts, marketByName)
    ensures Canonical(g, WithMarket(parts, m),
      if m.name !in marketByName then marketByName[m.name := MarketNode(g)(m)] else marketByName)
  {
    assert Minted(parts.marketplaces, []) == [] && Minted(parts.marketplaces + [m], []) == [];
    forall name { MarketForSnoc(g, parts.marketplaces, m, name); }
  }

  lemma CanonicalPlugin(g: Context, parts: Parts, p: Plugin, marketByName: map<string, Node>)
    requires Canonical(g, parts, marketByName)
    ensures Mints(parts, p.fromMarketplace) <==> p.fromMarketplace != "" && p.fromMarketplace !in marketByName
    ensures Canonical(g, WithPlugin(parts, p),
      if Mints(parts, p.fromMarketplace) then marketByName[p.fromMarketplace := MintedNode(g)(p.fromMarketplace)]
      else marketByName)
    ensures Mints(parts, p.fromMarketplace) ==>
      MarketFor(g, parts.marketplaces, p.fromMarketplace) == MintedNode(g)(p.fromMarketplace)
  {
    MintedGrows(parts, p);
    if Mints(parts, p.fromMarketplace) { UnregisteredIsMinted(g, parts.marketplaces, p.fromMarketplace); }
  }

  lemma FilingPlugin(g: Context, parts: Parts, p: Plugin, byName: map<Bucket, ByName>)
    requires Filing(g, parts, byName) && PluginBucket in byName && MarketplaceBucket in byName
    ensures var filed := FileAfter(byName, PluginBucket, PluginNode(g)(p));
      Filing(g, WithPlugin(parts, p),
        if Mints(parts, p.fromMarketplace) then FileAfter(filed, MarketplaceBucket, MintedNode(g)(p.fromMarketplace))
        else filed)
  {
    hide MintedNode, PluginNode, Mints, Minted, MarketNode, Filed, Groups;
    var after := WithPlugin(parts, p);
    var filed := FileAfter(byName, PluginBucket, PluginNode(g)(p));
    PluginFiled(g, parts, p);
    GroupsGrow(Filed(g, PluginBucket, parts), PluginNode(g)(p), byName[PluginBucket]);
    GroupsGrow(Filed(g, MarketplaceBucket, parts), MintedNode(g)(p.fromMarketplace), byName[MarketplaceBucket]);
    assert Filed(g, MarketplaceBucket, parts) + [] == Filed(g, MarketplaceBucket, parts);
    forall b: Bucket | b != PluginBucket && b != MarketplaceBucket ensures Filed(g, b, after) == Filed(g, b, parts) {
      OtherBucketsStay(g, b, parts, p);
    }
  }

  lemma OtherBucketsStay(g: Context, b: Bucket, parts: Parts, p: Plugin)
    requires b != PluginBucket && b != MarketplaceBucket
    ensures Filed(g, b, WithPlugin(parts, p)) == Filed(g, b, parts)
  {
  }

  // ---------- the snapshot ----------

  lemma EdgeLeqIsOrder()
    ensures Total(EdgeLeq) && Transitive(EdgeLeq)
  {
    forall x, y ensures EdgeLeq(x, y) || EdgeLeq(y, x) { StringLeqTotal(x.id, y.id); }
    forall x, y, z | EdgeLeq(x, y) && EdgeLeq(y, z) ensures EdgeLeq(x, z) { StringLeqTransitive(x.id, y.id, z.id); }
  }

  method FingerprintLists(installation: string, nodes: seq<Node>, edges: seq<Edge>) returns (r: seq<string>)
    ensures r == FingerprintParts(installation, nodes, edges)
  {
    r := [installation];
    for i := 0 to |nodes|
      invariant r == [installation] + FingerprintNodes(nodes[..i])
    {
      assert nodes[..i + 1][..i] == nodes[..i];
      r := r + [nodes[i].id, nodes[i].fingerprint];
    }
    assert nodes[..|nodes|] == nodes;
    for i := 0 to |edges|
      invariant r == [installation] + FingerprintNodes(nodes) + FingerprintEdges(edges[..i])
    {
      assert edges[..i + 1][..i] == edges[..i];
      r := r + [edges[i].id];
    }
    assert edges[..|edges|] == edges;
  }

  method BuildInventorySnapshot(hex: Hex, input: Input, now: int, gaps: Gaps) returns (r: Outcome)
    requires gaps.tally == input.gaps
    ensures IsOutcome(hex, input, now, r)
  {
    if |input.targets| > MAX_TARGETS { return TooManyTargets; }
    if exists t :: t in input.targets && !t.absolute { return RelativeTarget; }
    var g := Context(hex, input.installation);
    var builder := new Builder(g);
    builder.AddAll(input);
    builder.AddCollisions();
    NodeLeqIsOrder();
    EdgeLeqIsOrder();
    var nodes := SortBy(builder.nodes, NodeLeq);
    var edges := SortBy(builder.edges, EdgeLeq);
    var parts := FingerprintLists(input.installation, nodes, edges);
    var fingerprint := hex(parts);
    var total := gaps.Total();
    r := Built(Snapshot(
      "claudesnap_" + hex(["claude-snapshot", input.installation, fingerprint]),
      input.installation, now, fingerprint, nodes, edges, total, input.gaps));
  }
}
