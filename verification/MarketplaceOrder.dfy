/** When the order of the marketplaces matters: the first marketplace of a name is canonical, so the
    built snapshot depends on the order exactly when some plugin points at a shared name. */
module MarketplaceOrder {
  import opened Ordering
  import opened CoverageGaps
  import opened InventoryTypes
  import opened GraphCollisions
  import opened InventoryGraph
  import opened GraphIdentity
  import opened GraphOrder
  import GraphBuilder

  // ---------- every input has an outcome ----------

  lemma SnapshotExists(hex: Hex, input: Input, now: int) returns (s: Snapshot)
    ensures IsSnapshot(hex, input, now, s)
  {
    hide NodeBag, EdgeBag, PartsOf, FingerprintParts, Ordered, NodeLeq, EdgeLeq, SortedBy, TotalOf;
    var g := Context(hex, input.installation);
    var nodes := SortedBy(NodeLeq, BagList(NodeBag(g, PartsOf(g, input))));
    var edges := SortedBy(EdgeLeq, BagList(EdgeBag(g, PartsOf(g, input))));
    NodeLeqIsOrder();
    SortedByOrdered(NodeLeq, BagList(NodeBag(g, PartsOf(g, input))));
    GraphBuilder.EdgeLeqIsOrder();
    SortedByOrdered(EdgeLeq, BagList(EdgeBag(g, PartsOf(g, input))));
    var fingerprint := hex(FingerprintParts(input.installation, nodes, edges));
    s := Snapshot(
      "claudesnap_" + hex(["claude-snapshot", input.installation, fingerprint]),
      input.installation, now, fingerprint, nodes, edges, TotalOf(input.gaps), input.gaps);
  }

  lemma OutcomeExists(hex: Hex, input: Input, now: int) returns (r: Outcome)
    ensures IsOutcome(hex, input, now, r)
  {
    hide IsSnapshot;
    if |input.targets| > MAX_TARGETS {
      r := TooManyTargets;
    } else if exists t :: t in input.targets && !t.absolute {
      r := RelativeTarget;
    } else {
      var s := SnapshotExists(hex, input, now);
      r := Built(s);
    }
  }

  // ---------- the edge that gives the order away ----------

  /** A built graph's configured-in edges lead from each plugin to the marketplace that is canonical for
      its name. */
  lemma ConfiguredEdge(g: Context, input: Input, p: Plugin, e: Edge)
    requires Injective(g.hex) && DistinctPlugins(input.plugins) && p in input.plugins && p.fromMarketplace != ""
    requires e.kind == ConfiguredIn && e.from == PluginId(g, p)
    ensures e in EdgeBag(g, PartsOf(g, input)) <==>
      e == MakeEdge(g, ConfiguredLabel, PluginId(g, p), MarketFor(g, input.marketplaces, p.fromMarketplace).id)
  {
    hide EdgeBag, PlainEdgeBag, EdgesOf, PluginEdges, Collisions, CollisionMaker, Filed, PluginId, Joint;
    hide MarketFor, DistinctPlugins;
    hide PartsOf, LabelText;
    var parts := PartsOf(g, input);
    MarketsOfParts(g, input);
    if e in PlainEdgeBag(g, parts) {
      PlainEdgeOrigin(g, parts, e);
      if o :| o in parts.owned && e in EdgesOf(g)(o) {
        ComponentIsNotConfigured(g, o, e);
        assert false;
      } else {
        var q :| q in parts.plugins && e in PluginEdges(g, parts.marketplaces)(q);
        PluginConfigured(g, parts.marketplaces, q, e);
        PluginIdsDiffer(g, input.plugins, p, q);
      }
    } else if e in EdgeBag(g, parts) {
      var b := CollisionEdgeOrigin(g, parts, e);
      CollisionMember(CollisionMaker(g, b), Filed(g, b, parts), e);
      var x, y :| e == Joint(CollisionMaker(g, b), x, y);
      CollisionEdgeLabelled(g, b, x, y);
      assert false;
    }
    PluginHasConfigured(g, parts, p);
  }

  lemma ComponentIsNotConfigured(g: Context, o: Owned, e: Edge)
    requires e in EdgesOf(g)(o)
    ensures e.kind != ConfiguredIn
  {
    hide ComponentNode, ToolNode, Tools, InstallationId, EdgesOf, LabelText;
    ComponentEdgeCases(g, o, e);
  }

  lemma PluginConfigured(g: Context, marketplaces: seq<Marketplace>, q: Plugin, e: Edge)
    requires e in PluginEdges(g, marketplaces)(q) && e.kind == ConfiguredIn
    ensures e == MakeEdge(g, ConfiguredLabel, PluginId(g, q), MarketFor(g, marketplaces, q.fromMarketplace).id)
    ensures e.from == PluginId(g, q)
  {
    hide MarketFor, PluginId, InstallationId, LabelText;
  }

  lemma PluginHasConfigured(g: Context, parts: Parts, p: Plugin)
    requires p in parts.plugins && p.fromMarketplace != ""
    ensures var market := MarketFor(g, parts.marketplaces, p.fromMarketplace);
      MakeEdge(g, ConfiguredLabel, PluginId(g, p), market.id) in EdgeBag(g, parts)
  {
    hide PluginId, BagSum, Collisions, LabelText, MarketFor, MakeEdge;
    var e := MakeEdge(g, ConfiguredLabel, PluginId(g, p), MarketFor(g, parts.marketplaces, p.fromMarketplace).id);
    var i :| 0 <= i < |parts.plugins| && parts.plugins[i] == p;
    BagSumMember(PluginEdges(g, parts.marketplaces), parts.plugins, e);
    assert e in PluginEdges(g, parts.marketplaces)(parts.plugins[i]);
  }

  // ---------- the exact condition ----------

  /** The same input with its marketplaces in another order. */
  ghost predicate MarketsPermuted(i: Input, j: Input)
  {
    j == i.(marketplaces := j.marketplaces) && multiset(i.marketplaces) == multiset(j.marketplaces)
  }

  /** However the marketplaces are ordered, the outcome is the same. */
  ghost predicate IgnoresMarketOrder(hex: Hex, i: Input, now: int)
  {
    forall j, r, s :: MarketsPermuted(i, j) && IsOutcome(hex, i, now, r) && IsOutcome(hex, j, now, s) ==> r == s
  }

  ghost predicate GoodTargets(input: Input)
  {
    |input.targets| <= MAX_TARGETS && forall t :: t in input.targets ==> t.absolute
  }

  lemma PermutedIsShuffled(i: Input, j: Input)
    requires MarketsPermuted(i, j)
    ensures Shuffled(i, j)
  {
    hide ShapeOf, PluginShapeOf, Map;
  }

  /** A marketplace that is not canonical for its name, though some plugin points at that name. */
  lemma SharedPointer(g: Context, i: Input) returns (p: Plugin, m: Marketplace)
    requires Injective(g.hex) && DistinctMarketplaces(i.marketplaces) && !PointersClear(i)
    ensures p in i.plugins && p.fromMarketplace == m.name != "" && m in i.marketplaces
    ensures MarketFor(g, i.marketplaces, m.name).id != MarketNode(g)(m).id
  {
    hide MarketFor, DistinctMarketplaces;
    p :| p in i.plugins && p.fromMarketplace != "" && !Unshared(i.marketplaces, p.fromMarketplace);
    var n;
    m, n :| m in i.marketplaces && n in i.marketplaces && m.name == n.name == p.fromMarketplace && m != n;
    MarketIdsDiffer(g, i.marketplaces, m, n);
    if MarketFor(g, i.marketplaces, m.name).id == MarketNode(g)(m).id { m := n; }
  }

  lemma MarketIdsDiffer(g: Context, markets: seq<Marketplace>, m: Marketplace, n: Marketplace)
    requires Injective(g.hex) && DistinctMarketplaces(markets) && m in markets && n in markets && m != n
    ensures MarketNode(g)(m).id != MarketNode(g)(n).id
  {
    var p, q := ["marketplace", m.name, m.path], ["marketplace", n.name, n.path];
    if NodeId(g, p) == NodeId(g, q) {
      NodeIdInjective(g, p, q);
      assert p[1] == q[1] && p[2] == q[2];
      SameKeySameElement(MarketKeyOf(), markets, m, n);
    }
  }

  /** The input with one of its marketplaces moved to the front, where it is canonical. */
  lemma MovedToFront(g: Context, i: Input, m: Marketplace) returns (j: Input)
    requires m in i.marketplaces
    ensures MarketsPermuted(i, j) && MarketFor(g, j.marketplaces, m.name) == MarketNode(g)(m)
  {
    var k :| 0 <= k < |i.marketplaces| && i.marketplaces[k] == m;
    var rest := i.marketplaces[..k] + i.marketplaces[k + 1..];
    BagWithout(i.marketplaces, k);
    assert multiset([m] + rest) == multiset{m} + multiset(rest);
    j := i.(marketplaces := [m] + rest);
  }

  lemma ConfiguredDiffers(hex: Hex, i: Input, j: Input, now: int, p: Plugin, s: Snapshot, t: Snapshot)
    requires Injective(hex) && DistinctPlugins(i.plugins) && MarketsPermuted(i, j)
    requires p in i.plugins && p.fromMarketplace != ""
    requires var g, name := Context(hex, i.installation), p.fromMarketplace;
      MarketFor(g, i.marketplaces, name).id != MarketFor(g, j.marketplaces, name).id
    requires IsSnapshot(hex, i, now, s) && IsSnapshot(hex, j, now, t)
    ensures var g := Context(hex, i.installation);
      var e := MakeEdge(g, ConfiguredLabel, PluginId(g, p), MarketFor(g, j.marketplaces, p.fromMarketplace).id);
      e in t.edges && e !in s.edges
  {
    hide EdgeBag, NodeBag, PartsOf, MarketFor, PluginId, DistinctPlugins, FingerprintParts, Ordered, LabelText;
    var g := Context(hex, i.installation);
    var e := MakeEdge(g, ConfiguredLabel, PluginId(g, p), MarketFor(g, j.marketplaces, p.fromMarketplace).id);
    ConfiguredEdge(g, i, p, e);
    ConfiguredEdge(g, j, p, e);
    assert e in t.edges <==> e in multiset(t.edges);
    assert e in s.edges <==> e in multiset(s.edges);
  }

  /** With distinct descriptor keys, distinct (name, path) pairs of marketplaces and acceptable targets,
      every order of the marketplaces gives the same snapshot exactly when no name that some plugin
      points at is shared by two of them. */
  lemma MarketplaceOrderMatters(hex: Hex, i: Input, now: int)
    requires Injective(hex) && DistinctKeys(i) && GoodTargets(i)
    ensures IgnoresMarketOrder(hex, i, now) <==> PointersClear(i)
  {
    hide DistinctComponents, DistinctPlugins, DistinctMarketplaces, PointersClear, MarketsPermuted;
    hide IsSnapshot, MarketFor, PluginId, Shuffled, MakeEdge;
    if PointersClear(i) {
      forall j, r, s | MarketsPermuted(i, j) && IsOutcome(hex, i, now, r) && IsOutcome(hex, j, now, s) ensures r == s {
        PermutedIsShuffled(i, j);
        SnapshotIgnoresOrder(hex, i, j, now, r, s);
      }
    } else {
      var g := Context(hex, i.installation);
      var p, m := SharedPointer(g, i);
      var j := MovedToFront(g, i, m);
      var s := SnapshotExists(hex, i, now);
      var t := SnapshotExists(hex, j, now);
      ConfiguredDiffers(hex, i, j, now, p, s, t);
      SameTargets(i, j);
      assert IsOutcome(hex, i, now, Built(s)) && IsOutcome(hex, j, now, Built(t));
    }
  }

  lemma SameTargets(i: Input, j: Input)
    requires MarketsPermuted(i, j)
    ensures i.targets == j.targets
  {
  }
}
