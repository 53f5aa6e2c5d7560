/** What every built snapshot says: which components are enabled, and which collide. */
module GraphProperties {
  import opened Ordering
  import opened InventoryTypes
  import opened GraphCollisions
  import opened InventoryGraph
  import opened GraphIdentity
  import opened GraphOrder
  import GraphBuilder

  // ---------- enablement ----------

  ghost predicate HasEnablement(edges: seq<Edge>, id: string)
  {
    exists e :: e in edges && e.kind == EnabledFor && e.from == id
  }

  function ComponentId(g: Context, c: Component, owner: string): string
  {
    NodeId(g, ComponentParts(g, Owned(c, owner, true)))
  }

  lemma EnablementOrigin(g: Context, parts: Parts, e: Edge)
    requires e in EdgeBag(g, parts) && e.kind == EnabledFor
    ensures e.to == InstallationId(g)
    ensures (exists o :: o in parts.owned && Enabled(o) && e.from == ComponentNode(g, o).id)
         || (exists p :: p in parts.plugins && Active(p) && e.from == PluginId(g, p))
  {
    hide EdgeBag, PlainEdgeBag, EdgesOf, PluginEdges, Collisions, CollisionMaker, Filed, PluginId;
    hide ComponentNode, Joint, InstallationId;
    if e in PlainEdgeBag(g, parts) {
      PlainEdgeOrigin(g, parts, e);
      if o :| o in parts.owned && e in EdgesOf(g)(o) {
        ComponentEnablement(g, o, e);
      } else {
        var p :| p in parts.plugins && e in PluginEdges(g, parts.marketplaces)(p);
        PluginEnablementEdge(g, parts.marketplaces, p, e);
      }
    } else {
      var b := CollisionEdgeOrigin(g, parts, e);
      CollisionMember(CollisionMaker(g, b), Filed(g, b, parts), e);
      var x, y :| e == Joint(CollisionMaker(g, b), x, y);
      CollisionEdgeLabelled(g, b, x, y);
      assert false;
    }
  }

  lemma ComponentEnablement(g: Context, o: Owned, e: Edge)
    requires e in EdgesOf(g)(o) && e.kind == EnabledFor
    ensures Enabled(o) && e.from == ComponentNode(g, o).id && e.to == InstallationId(g)
  {
    hide ComponentNode, ToolNode, Tools, InstallationId, EdgesOf, LabelText;
    ComponentEdgeCases(g, o, e);
  }

  lemma PluginEnablementEdge(g: Context, marketplaces: seq<Marketplace>, p: Plugin, e: Edge)
    requires e in PluginEdges(g, marketplaces)(p) && e.kind == EnabledFor
    ensures Active(p) && e.from == PluginId(g, p) && e.to == InstallationId(g)
  {
    hide MarketFor, PluginId, InstallationId;
  }

  lemma EnabledHasEdge(g: Context, parts: Parts, o: Owned) returns (e: Edge)
    requires o in parts.owned && Enabled(o)
    ensures e in EdgeBag(g, parts) && e.kind == EnabledFor && e.from == ComponentNode(g, o).id
  {
    hide ComponentNode, BagSum, Collisions, LabelText;
    e := MakeEdge(g, EnabledLabel, ComponentNode(g, o).id, InstallationId(g));
    var i :| 0 <= i < |parts.owned| && parts.owned[i] == o;
    BagSumMember(EdgesOf(g), parts.owned, e);
    assert e in EdgesOf(g)(parts.owned[i]);
  }

  lemma ActiveHasEdge(g: Context, parts: Parts, p: Plugin) returns (e: Edge)
    requires p in parts.plugins && Active(p)
    ensures e in EdgeBag(g, parts) && e.kind == EnabledFor && e.from == PluginId(g, p)
  {
    hide PluginId, BagSum, Collisions, LabelText, MarketFor;
    e := MakeEdge(g, PluginEnabledLabel, PluginId(g, p), p.activeFor);
    var i :| 0 <= i < |parts.plugins| && parts.plugins[i] == p;
    BagSumMember(PluginEdges(g, parts.marketplaces), parts.plugins, e);
    assert e in PluginEdges(g, parts.marketplaces)(parts.plugins[i]);
  }

  /** A component has an enablement edge exactly when its own flags and its owner allow it. */
  lemma OwnedEnablement(hex: Hex, input: Input, now: int, s: Snapshot, o: Owned)
    requires Injective(hex) && DistinctKeys(input) && IsSnapshot(hex, input, now, s)
    requires o in PartsOf(Context(hex, input.installation), input).owned
    ensures HasEnablement(s.edges, ComponentNode(Context(hex, input.installation), o).id) <==> Enabled(o)
  {
    hide EdgeBag, NodeBag, PartsOf, DistinctKeys, ComponentNode, FingerprintParts, PluginId;
    var g := Context(hex, input.installation);
    var parts := PartsOf(g, input);
    var id := ComponentNode(g, o).id;
    if Enabled(o) {
      var e := EnabledHasEdge(g, parts, o);
      assert e in multiset(s.edges);
    }
    if HasEnablement(s.edges, id) {
      var e :| e in s.edges && e.kind == EnabledFor && e.from == id;
      assert e in multiset(s.edges);
      EnablementOrigin(g, parts, e);
      if p :| p in parts.plugins && Active(p) && e.from == PluginId(g, p) {
        ComponentIsNoPlugin(g, o, p);
        assert false;
      } else {
        var w :| w in parts.owned && Enabled(w) && e.from == ComponentNode(g, w).id;
        SameComponentId(g, input, o, w);
      }
    }
  }

  lemma ComponentNodeId(g: Context, o: Owned)
    ensures ComponentNode(g, o).id == NodeId(g, ComponentParts(g, o))
  {
  }

  lemma ComponentIsNoPlugin(g: Context, o: Owned, p: Plugin)
    requires Injective(g.hex)
    ensures ComponentNode(g, o).id != PluginId(g, p)
  {
    ComponentNodeId(g, o);
    if ComponentNode(g, o).id == PluginId(g, p) {
      NodeIdInjective(g, ComponentParts(g, o), PluginParts(g, p));
      PartsTellOriginsApart(g, FromComponent(o), FromPlugin(p));
    }
  }

  lemma SameComponentId(g: Context, input: Input, o: Owned, w: Owned)
    requires Injective(g.hex) && DistinctKeys(input)
    requires o in PartsOf(g, input).owned && w in PartsOf(g, input).owned
    requires ComponentNode(g, o).id == ComponentNode(g, w).id
    ensures o == w
  {
    hide PartsOf, DistinctKeys, ComponentNode, ComponentParts, NodeId;
    ComponentNodeId(g, o);
    ComponentNodeId(g, w);
    NodeIdInjective(g, ComponentParts(g, o), ComponentParts(g, w));
    SameOwnedParts(g, input, o, w);
  }

  /** Each component is enabled exactly when its owner is and its own flags allow it. */
  ghost predicate ComponentsFollow(g: Context, edges: seq<Edge>, cs: seq<Component>, owner: string, ownerEnabled: bool)
  {
    forall c :: c in cs ==> (HasEnablement(edges, ComponentId(g, c, owner)) <==> ownerEnabled && OwnFlags(c))
  }

  /** Enablement is inherited: a bundled component is enabled exactly when its plugin is active
      and its own flags allow it, a standalone one exactly when its own flags allow it, a plugin
      exactly when it is not cached only and is wired into something. */
  lemma EnablementIsInherited(hex: Hex, input: Input, now: int, s: Snapshot)
    requires Injective(hex) && DistinctKeys(input) && IsSnapshot(hex, input, now, s)
    ensures var g := Context(hex, input.installation);
      && ComponentsFollow(g, s.edges, Standalone(input), "", true)
      && forall p :: p in input.plugins ==>
           && ComponentsFollow(g, s.edges, Components(p), PluginId(g, p), Active(p))
           && (HasEnablement(s.edges, PluginId(g, p)) <==> Active(p))
  {
    hide DistinctComponents, DistinctPlugins, PluginId, Standalone, Components, IsSnapshot, HasEnablement;
    hide OwnFlags, ComponentId;
    var g := Context(hex, input.installation);
    forall c | c in Standalone(input) ensures HasEnablement(s.edges, ComponentId(g, c, "")) <==> true && OwnFlags(c) {
      OwnerDecides(hex, input, now, s, Owned(c, "", true));
    }
    forall p | p in input.plugins
      ensures ComponentsFollow(g, s.edges, Components(p), PluginId(g, p), Active(p))
      ensures HasEnablement(s.edges, PluginId(g, p)) <==> Active(p)
    {
      PluginEnablement(hex, input, now, s, p);
      forall c | c in Components(p)
        ensures HasEnablement(s.edges, ComponentId(g, c, PluginId(g, p))) <==> Active(p) && OwnFlags(c)
      {
        OwnerDecides(hex, input, now, s, Owned(c, PluginId(g, p), Active(p)));
      }
    }
  }

  lemma OwnerDecides(hex: Hex, input: Input, now: int, s: Snapshot, o: Owned)
    requires Injective(hex) && DistinctKeys(input) && IsSnapshot(hex, input, now, s)
    requires OwnedBy(Context(hex, input.installation), input, o)
    ensures HasEnablement(s.edges, ComponentId(Context(hex, input.installation), o.component, o.owner)) <==> Enabled(o)
  {
    hide IsSnapshot, OwnedBy, PartsOf, DistinctComponents, HasEnablement, DistinctPlugins;
    var g := Context(hex, input.installation);
    OwnedMember(g, input, o);
    OwnedEnablement(hex, input, now, s, o);
    ComponentNodeId(g, o);
    assert ComponentParts(g, o) == ComponentParts(g, Owned(o.component, o.owner, true));
  }

  lemma PluginEnablement(hex: Hex, input: Input, now: int, s: Snapshot, p: Plugin)
    requires Injective(hex) && DistinctKeys(input) && IsSnapshot(hex, input, now, s) && p in input.plugins
    ensures HasEnablement(s.edges, PluginId(Context(hex, input.installation), p)) <==> Active(p)
  {
    hide EdgeBag, NodeBag, ComponentNode, FingerprintParts, PluginId, DistinctComponents, DistinctPlugins;
    hide Standalone, PluginOwned;
    var g := Context(hex, input.installation);
    var parts := PartsOf(g, input);
    MarketsOfParts(g, input);
    if Active(p) {
      var e := ActiveHasEdge(g, parts, p);
      assert e in multiset(s.edges);
    }
    if HasEnablement(s.edges, PluginId(g, p)) {
      var e :| e in s.edges && e.kind == EnabledFor && e.from == PluginId(g, p);
      assert e in multiset(s.edges);
      EnablementOrigin(g, parts, e);
      if q :| q in parts.plugins && Active(q) && e.from == PluginId(g, q) {
        PluginIdsDiffer(g, input.plugins, p, q);
      } else {
        var o :| o in parts.owned && Enabled(o) && e.from == ComponentNode(g, o).id;
        ComponentIsNoPlugin(g, o, p);
        assert false;
      }
    }
  }

  /** Cache presence never enables anything: neither a cached-only package nor anything it
      bundles has an enablement edge. */
  lemma CachedIsNeverEnabled(hex: Hex, input: Input, now: int, s: Snapshot, p: Plugin)
    requires Injective(hex) && DistinctKeys(input) && IsSnapshot(hex, input, now, s)
    requires p in input.plugins && p.cachedOnly
    ensures var g := Context(hex, input.installation);
      && !HasEnablement(s.edges, PluginId(g, p))
      && forall c :: c in Components(p) ==> !HasEnablement(s.edges, ComponentId(g, c, PluginId(g, p)))
  {
    hide IsSnapshot, DistinctKeys, HasEnablement, Components, Standalone, PluginId, ComponentId;
    var g := Context(hex, input.installation);
    PluginEnablement(hex, input, now, s, p);
    forall c | c in Components(p) ensures !HasEnablement(s.edges, ComponentId(g, c, PluginId(g, p))) {
      OwnerDecides(hex, input, now, s, Owned(c, PluginId(g, p), Active(p)));
    }
  }

  // ---------- each component filed once ----------

  /** No component is owned twice in the same way. */
  lemma {:induction false} PluginOwnedOnce(g: Context, plugins: seq<Plugin>)
    requires Injective(g.hex) && DistinctPlugins(plugins)
    requires forall p :: p in plugins ==> DistinctComponents(Components(p))
    ensures NoDuplicates(PluginOwned(g, plugins))
  {
    hide Components, DistinctComponents, PluginId, Own, Map, NoDuplicates, EnabledIn;
    if plugins == [] {
      NoDuplicatesNone<Owned>();
    } else {
      var front, p := plugins[..|plugins| - 1], plugins[|plugins| - 1];
      assert plugins == front + [p] && p in plugins;
      DistinctPluginsFront(front, p);
      PluginOwnedOnce(g, front);
      OwnEnablement(g, plugins, p);
      var own := Own(PluginId(g, p), Active(p));
      assert PluginOwned(g, plugins) == PluginOwned(g, front) + Map(own, Components(p));
      OwnedListOnce(PluginId(g, p), Active(p), Components(p));
      forall o | o in PluginOwned(g, front) ensures o !in Map(own, Components(p)) {
        OwnedElsewhere(g, front, p, o);
      }
      NoDuplicatesConcat(PluginOwned(g, front), Map(own, Components(p)));
    }
  }

  lemma NoDuplicatesNone<A>()
    ensures NoDuplicates<A>([])
  {
  }

  lemma OwnedListOnce(owner: string, inherits: bool, cs: seq<Component>)
    requires DistinctComponents(cs)
    ensures NoDuplicates(Map(Own(owner, inherits), cs))
  {
    NoDuplicatesFromKeys(KeyOf(), cs);
  }

  lemma OwnedElsewhere(g: Context, front: seq<Plugin>, p: Plugin, o: Owned)
    requires Injective(g.hex) && DistinctPlugins(front + [p]) && o in PluginOwned(g, front)
    ensures o !in Map(Own(PluginId(g, p), Active(p)), Components(p))
  {
    hide PluginId, Components;
    DistinctPluginsFront(front, p);
    PluginOwnedMember(g, front, o);
    var q :| q in front && o.component in Components(q) && o.owner == PluginId(g, q);
    MapMember(Own(PluginId(g, p), Active(p)), Components(p), o);
    LastIsNew(front, p, q);
    if o.owner == PluginId(g, p) { PluginIdsDiffer(g, front + [p], p, q); }
  }

  lemma LastIsNew(front: seq<Plugin>, p: Plugin, q: Plugin)
    requires DistinctPlugins(front + [p]) && q in front
    ensures p != q
  {
    var i :| 0 <= i < |front| && front[i] == q;
    var keys := Map(PluginKeyOf(), front + [p]);
    assert keys[i] == PluginKeyOf()(q) && keys[|front|] == PluginKeyOf()(p);
  }

  lemma OwnedOnce(g: Context, input: Input)
    requires Injective(g.hex) && DistinctKeys(input)
    ensures NoDuplicates(PartsOf(g, input).owned)
  {
    hide Components, DistinctComponents, PluginId, Standalone, NoDuplicates, DistinctPlugins;
    hide DistinctMarketplaces, PluginOwned;
    PluginOwnedOnce(g, input.plugins);
    OwnedListOnce("", true, Standalone(input));
    var own := Own("", true);
    forall o | o in Map(own, Standalone(input)) ensures o !in PluginOwned(g, input.plugins) {
      MapMember(own, Standalone(input), o);
      PluginOwnedMember(g, input.plugins, o);
      forall p: Plugin ensures PluginId(g, p) != "" { PluginIdNonEmpty(g, p); }
    }
    NoDuplicatesConcat(Map(own, Standalone(input)), PluginOwned(g, input.plugins));
  }

  // ---------- collisions in the snapshot ----------

  lemma CollisionMakerInjective(g: Context, b: Bucket)
    ensures InjectiveMaker(CollisionMaker(g, b))
  {
    hide LabelText;
  }

  lemma {:induction false} FiledComponentsDistinct(g: Context, input: Input, b: Bucket, owned: seq<Owned>)
    requires Injective(g.hex) && DistinctKeys(input)
    requires NoDuplicates(owned) && forall o :: o in owned ==> o in PartsOf(g, input).owned
    ensures DistinctIds(FiledComponents(g, b, owned))
    ensures forall n :: n in FiledComponents(g, b, owned) ==> exists o :: o in owned && n == ComponentNode(g, o)
  {
    hide PartsOf, DistinctKeys, ComponentNode, BucketOf;
    if owned != [] {
      var k := |owned| - 1;
      var front, last := owned[..k], owned[k];
      assert owned == front + [last] && last in owned;
      FiledComponentsDistinct(g, input, b, front);
      var filed := FiledComponents(g, b, front);
      forall i | 0 <= i < |filed| ensures filed[i].id != ComponentNode(g, last).id {
        assert filed[i] in filed;
        var o :| o in front && filed[i] == ComponentNode(g, o);
        if filed[i].id == ComponentNode(g, last).id { SameComponentId(g, input, o, last); }
      }
    }
  }

  lemma DistinctByOrigin<A(!new)>(f: A -> Node, s: seq<A>)
    requires NoDuplicates(s) && forall x, z :: x in s && z in s && f(x).id == f(z).id ==> x == z
    ensures DistinctIds(Map(f, s))
  {
    var nodes := Map(f, s);
    forall i, j | 0 <= i < j < |nodes| ensures nodes[i].id != nodes[j].id {
      assert s[i] in s && s[j] in s && s[i] != s[j];
    }
  }

  lemma DistinctIdsConcat(s: seq<Node>, t: seq<Node>)
    requires DistinctIds(s) && DistinctIds(t) && forall x, y :: x in s && y in t ==> x.id != y.id
    ensures DistinctIds(s + t)
  {
    forall i, j | 0 <= i < j < |s + t| ensures (s + t)[i].id != (s + t)[j].id {
      if i < |s| <= j { assert s[i] in s && t[j - |s|] in t; }
    }
  }

  lemma FiledDistinct(g: Context, input: Input, b: Bucket)
    requires Injective(g.hex) && DistinctKeys(input)
    ensures DistinctIds(Filed(g, b, PartsOf(g, input)))
  {
    hide DistinctComponents, Standalone, PluginOwned, FiledComponents, MarketNode, PluginNode, MintedNode;
    hide Minted, Own, Map, DistinctIds, NoDuplicates, NodeId, PluginId;
    MarketsOfParts(g, input);
    match b {
      case PluginBucket =>
        NoDuplicatesFromKeys(PluginKeyOf(), input.plugins);
        forall p, q | p in input.plugins && q in input.plugins && PluginNode(g)(p).id == PluginNode(g)(q).id
          ensures p == q
        {
          GraphBuilder.PluginNodeId(g, p);
          GraphBuilder.PluginNodeId(g, q);
          PluginIdsDiffer(g, input.plugins, p, q);
        }
        DistinctByOrigin(PluginNode(g), input.plugins);
      case MarketplaceBucket => FiledMarketsDistinct(g, input);
      case _ =>
        OwnedOnce(g, input);
        FiledComponentsDistinct(g, input, b, PartsOf(g, input).owned);
    }
  }

  lemma FiledMarketsDistinct(g: Context, input: Input)
    requires Injective(g.hex) && DistinctMarketplaces(input.marketplaces)
    ensures DistinctIds(Filed(g, MarketplaceBucket, Parts([], input.marketplaces, input.plugins)))
  {
    hide Minted, DistinctIds, NoDuplicates, Map, MarketNode, MintedNode;
    var markets, names := input.marketplaces, Minted(input.marketplaces, input.plugins);
    NoDuplicatesFromKeys(MarketKeyOf(), markets);
    MintedMember(markets, input.plugins, "");
    forall m, n | m in markets && n in markets && MarketNode(g)(m).id == MarketNode(g)(n).id ensures m == n {
      SameMarketIds(g, FromMarket(m), FromMarket(n));
      SameKeySameElement(MarketKeyOf(), markets, m, n);
    }
    DistinctByOrigin(MarketNode(g), markets);
    forall m, n | m in names && n in names && MintedNode(g)(m).id == MintedNode(g)(n).id ensures m == n {
      SameMarketIds(g, FromMinted(m), FromMinted(n));
    }
    DistinctByOrigin(MintedNode(g), names);
    forall x, y | x in Map(MarketNode(g), markets) && y in Map(MintedNode(g), names) ensures x.id != y.id {
      MapMember(MarketNode(g), markets, x);
      MapMember(MintedNode(g), names, y);
      var m :| m in markets && MarketNode(g)(m) == x;
      var n :| n in names && MintedNode(g)(n) == y;
      if x.id == y.id { SameMarketIds(g, FromMarket(m), FromMinted(n)); }
    }
    DistinctIdsConcat(Map(MarketNode(g), markets), Map(MintedNode(g), names));
  }

  lemma SameMarketIds(g: Context, a: Origin, b: Origin)
    requires Injective(g.hex) && OriginNode(g, a).id == OriginNode(g, b).id
    requires (a.FromMarket? || a.FromMinted?) && (b.FromMarket? || b.FromMinted?)
    ensures a.FromMarket? == b.FromMarket?
    ensures a.FromMarket? ==> a.market.name == b.market.name && a.market.path == b.market.path
    ensures a.FromMinted? ==> a.name == b.name
  {
    hide OriginNode, NodeId;
    OriginId(g, a);
    OriginId(g, b);
    var p, q := OriginParts(g, a), OriginParts(g, b);
    NodeIdInjective(g, p, q);
    assert |p| == |q| && p[1] == q[1];
    assert a.FromMarket? ==> p[2] == q[2];
  }

  lemma {:induction false} OnlyThisBucket(f: Bucket -> multiset<Edge>, buckets: seq<Bucket>, b: Bucket, e: Edge)
    requires NoDuplicates(buckets) && forall c :: c != b ==> f(c)[e] == 0
    ensures BagSum(f, buckets)[e] == if b in buckets then f(b)[e] else 0
  {
    if buckets != [] {
      var n := |buckets| - 1;
      assert buckets == buckets[..n] + [buckets[n]];
      OnlyThisBucket(f, buckets[..n], b, e);
    }
  }

  lemma CollisionIdsDiffer(g: Context, b: Bucket, c: Bucket, from: string, to: string, x: string, y: string)
    requires Injective(g.hex) && b != c
    ensures MakeEdge(g, CollisionLabel(b), from, to) != MakeEdge(g, CollisionLabel(c), x, y)
  {
    hide LabelText;
    var e, f := MakeEdge(g, CollisionLabel(b), from, to), MakeEdge(g, CollisionLabel(c), x, y);
    var p, q := [LabelText(CollisionLabel(b)), from, to], [LabelText(CollisionLabel(c)), x, y];
    assert e.id[5..] == g.hex(p) && f.id[5..] == g.hex(q);
    if e == f {
      assert p[0] == q[0];
      LabelTextInjective(CollisionLabel(b), CollisionLabel(c));
    }
  }

  lemma OtherBucketsNever(g: Context, parts: Parts, b: Bucket, c: Bucket, from: string, to: string)
    requires Injective(g.hex) && b != c
    ensures MakeEdge(g, CollisionLabel(b), from, to) !in Collisions(CollisionMaker(g, c), Filed(g, c, parts))
  {
    hide Filed, MakeEdge;
    var e := MakeEdge(g, CollisionLabel(b), from, to);
    if e in Collisions(CollisionMaker(g, c), Filed(g, c, parts)) {
      CollisionMember(CollisionMaker(g, c), Filed(g, c, parts), e);
      var x, y :| e == Joint(CollisionMaker(g, c), x, y);
      CollisionEdgeLabelled(g, c, x, y);
      CollisionIdsDiffer(g, b, c, from, to, x.id, y.id);
      CollisionIdsDiffer(g, b, c, from, to, y.id, x.id);
    }
  }

  lemma PlainIsNoCollision(g: Context, parts: Parts, e: Edge)
    requires e.kind == CollidesWith
    ensures e !in PlainEdgeBag(g, parts)
  {
    hide PlainEdgeBag, MakeEdge, EdgesOf, PluginEdges;
    if e in PlainEdgeBag(g, parts) {
      PlainEdgeOrigin(g, parts, e);
      if o :| o in parts.owned && e in EdgesOf(g)(o) {
        ComponentEdgeKind(g, o, e);
      } else {
        var p :| p in parts.plugins && e in PluginEdges(g, parts.marketplaces)(p);
        PluginEdgeKind(g, parts.marketplaces, p, e);
      }
    }
  }

  lemma ComponentEdgeKind(g: Context, o: Owned, e: Edge)
    requires e in EdgesOf(g)(o)
    ensures e.kind != CollidesWith
  {
    hide ComponentNode, ToolNode, Tools, LabelText, NodeId, EdgesOf;
    ComponentEdgeCases(g, o, e);
  }

  lemma PluginEdgeKind(g: Context, marketplaces: seq<Marketplace>, p: Plugin, e: Edge)
    requires e in PluginEdges(g, marketplaces)(p)
    ensures e.kind != CollidesWith
  {
    hide MarketFor, PluginId, LabelText, NodeId;
  }

  /** Two nodes of one bucket are joined by a collision edge exactly when they are different and
      share a declared name; then by exactly one, from the smaller id to the larger. */
  lemma SnapshotCollisions(hex: Hex, input: Input, now: int, s: Snapshot, b: Bucket, from: string, to: string)
    requires Injective(hex) && DistinctKeys(input) && IsSnapshot(hex, input, now, s)
    ensures var g := Context(hex, input.installation);
      multiset(s.edges)[MakeEdge(g, CollisionLabel(b), from, to)] ==
      if from != to && StringLeq(from, to) && Collide(Filed(g, b, PartsOf(g, input)), from, to) then 1 else 0
  {
    hide PlainEdgeBag, NodeBag, PartsOf, Filed, DistinctKeys, Collisions, MakeEdge, FingerprintParts, Collide, Ordered;
    var g := Context(hex, input.installation);
    var parts := PartsOf(g, input);
    var e := MakeEdge(g, CollisionLabel(b), from, to);
    assert e.kind == CollidesWith by { CollisionEdgeKind(g, b, from, to); }
    PlainIsNoCollision(g, parts, e);
    forall c | c != b ensures CollisionsOf(g, parts)(c)[e] == 0 {
      OtherBucketsNever(g, parts, b, c, from, to);
    }
    GraphBuilder.AllBuckets(b);
    OnlyThisBucket(CollisionsOf(g, parts), BUCKETS, b, e);
    FiledDistinct(g, input, b);
    CollisionMakerInjective(g, b);
    CollisionsAreExact(CollisionMaker(g, b), Filed(g, b, parts), from, to);
  }

  /** An edge that carries a bucket's collision label. */
  ghost predicate OfBucket(g: Context, b: Bucket, e: Edge)
  {
    exists from, to :: e == MakeEdge(g, CollisionLabel(b), from, to)
  }

  ghost function OnlyBucket(g: Context, b: Bucket): Edge -> multiset<Edge>
  {
    (e: Edge) => if OfBucket(g, b, e) then multiset{e} else multiset{}
  }

  lemma {:induction false} OnlyBucketCounts(g: Context, b: Bucket, edges: seq<Edge>, e: Edge)
    ensures BagSum(OnlyBucket(g, b), edges)[e] == if OfBucket(g, b, e) then multiset(edges)[e] else 0
  {
    hide OfBucket;
    if edges != [] {
      var n := |edges| - 1;
      assert edges == edges[..n] + [edges[n]];
      OnlyBucketCounts(g, b, edges[..n], e);
    }
  }

  /** The collision edges of one bucket in a snapshot are the joined pairs of its filed nodes, and twice
      their number is n(n-1) for each declared name that n of these nodes carry. */
  lemma BucketEdges(hex: Hex, input: Input, now: int, s: Snapshot, b: Bucket)
    requires Injective(hex) && IsSnapshot(hex, input, now, s)
    ensures var g := Context(hex, input.installation);
      var nodes, found := Filed(g, b, PartsOf(g, input)), BagSum(OnlyBucket(g, b), s.edges);
      && found == Collisions(CollisionMaker(g, b), nodes)
      && 2 * |found| == PairsByName(nodes, KeyList(NamesIn(nodes)))
  {
    hide NodeBag, EdgeBag, PartsOf, Filed, Collisions, FingerprintParts, Ordered, OfBucket, BagSum;
    hide PairsByName, KeyList;
    var g := Context(hex, input.installation);
    var parts := PartsOf(g, input);
    var found, all := BagSum(OnlyBucket(g, b), s.edges), Collisions(CollisionMaker(g, b), Filed(g, b, parts));
    forall e ensures found[e] == all[e] {
      OnlyBucketCounts(g, b, s.edges, e);
      BucketShare(g, parts, b, e);
    }
    assert found == all;
    PairCount(CollisionMaker(g, b), Filed(g, b, parts));
  }

  /** A bucket's joined pairs are what it contributes to the edges, and nobody else contributes any. */
  lemma BucketShare(g: Context, parts: Parts, b: Bucket, e: Edge)
    requires Injective(g.hex)
    ensures Collisions(CollisionMaker(g, b), Filed(g, b, parts))[e] ==
      if OfBucket(g, b, e) then EdgeBag(g, parts)[e] else 0
  {
    hide PlainEdgeBag, Filed, Collisions, MakeEdge, BagSum;
    if OfBucket(g, b, e) {
      var from, to :| e == MakeEdge(g, CollisionLabel(b), from, to);
      CollisionEdgeKind(g, b, from, to);
      PlainIsNoCollision(g, parts, e);
      forall c | c != b ensures CollisionsOf(g, parts)(c)[e] == 0 {
        OtherBucketsNever(g, parts, b, c, from, to);
      }
      GraphBuilder.AllBuckets(b);
      OnlyThisBucket(CollisionsOf(g, parts), BUCKETS, b, e);
    } else if e in Collisions(CollisionMaker(g, b), Filed(g, b, parts)) {
      CollisionMember(CollisionMaker(g, b), Filed(g, b, parts), e);
      var x, y :| e == Joint(CollisionMaker(g, b), x, y);
      CollisionEdgeLabelled(g, b, x, y);
      assert false;
    }
  }

  lemma CollisionEdgeKind(g: Context, b: Bucket, from: string, to: string)
    ensures MakeEdge(g, CollisionLabel(b), from, to).kind == CollidesWith
  {
  }
}
