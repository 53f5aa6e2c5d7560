/** An edited manifest shows: two scans of one state directory between which the text of a skill changed
    never build snapshots with one id. */
module ScanEdits {
  import opened Ordering
  import opened InventoryTypes
  import opened InventoryGraph
  import opened GraphIdentity
  import opened GraphAdmission
  import opened SnapshotPrints
  import opened HostTree
  import opened SkillScan
  import opened CacheScan
  import opened HostScan
  import opened ScanKeys

  /** The targets see one installation's state directory through the same digests. */
  ghost predicate SamePlace(t: ScanTarget, u: ScanTarget)
  {
    t.state == u.state && t.installation == u.installation && t.w.hex == u.w.hex
    && t.w.host.pseudonym == u.w.host.pseudonym
  }

  lemma PrintIsThere(s: Snapshot, t: Snapshot, n: Node) returns (m: Node)
    requires SamePrints(s, t) && n in s.nodes
    ensures m in t.nodes && m.id == n.id && m.fingerprint == n.fingerprint
  {
    var k :| 0 <= k < |s.nodes| && s.nodes[k] == n;
    assert |Map(PrintOf(), s.nodes)| == |Map(PrintOf(), t.nodes)|;
    assert Map(PrintOf(), s.nodes)[k] == Map(PrintOf(), t.nodes)[k];
    m := t.nodes[k];
  }

  /** A node with a standalone component's id, in another snapshot of the installation, is the node of a
      standalone component with the same key. */
  lemma SameIdSameKey(g: Context, input: Input, c: Component, m: Node) returns (d: Component)
    requires Injective(g.hex) && m in NodeBag(g, PartsOf(g, input))
    requires m.id == NodeId(g, ComponentParts(g, Owned(c, "", true)))
    ensures d in Standalone(input) && KeyOf()(d) == KeyOf()(c) && m.fingerprint == d.fingerprint
  {
    hide NodeBag, PartsOf, NodeId, KeyOf, Standalone, PluginOwned, ComponentParts;
    var a := FromComponent(Owned(c, "", true));
    var b := NodeHasOrigin(g, PartsOf(g, input), m);
    OriginId(g, b);
    NodeIdInjective(g, OriginParts(g, a), OriginParts(g, b));
    PartsTellOriginsApart(g, a, b);
    ComponentPartsKey(g, b.owned, Owned(c, "", true));
    d := b.owned.component;
    Unowned(g, input, b.owned);
  }

  lemma Unowned(g: Context, input: Input, o: Owned)
    requires o in PartsOf(g, input).owned && o.owner == ""
    ensures o.component in Standalone(input)
  {
    hide PluginOwned, PluginId, Standalone;
    MapMember(Own("", true), Standalone(input), o);
    if o in PluginOwned(g, input.plugins) {
      var p := OwnerAmong(g, input.plugins, o);
      PluginIdNonEmpty(g, p);
    }
  }

  lemma SkillKeys(t: ScanTarget, input: Input, c: SkillDescriptor, d: Component)
    requires IsScan(t, input) && d in Standalone(input) && KeyOf()(d) == KeyOf()(c)
    ensures d in SkillsOf(t) && d.Skill? && d.name == c.name && d.path == c.path
  {
    hide SkillsOf, ServersOf, CacheOf, GapsAt, MergedInto;
    LabelsTell(c, d);
  }

  lemma LabelsTell(c: SkillDescriptor, d: Component)
    ensures Label(d) == Label(c) ==> d.Skill?
  {
    assert "skill"[1] == 'k' && "command"[1] == 'o' && "subagent"[1] == 'u' && "hook"[1] == 'o'
      && "mcp-server"[1] == 'c';
  }

  lemma SkillNodeListed(t: ScanTarget, input: Input, now: int, s: Snapshot, c: SkillDescriptor) returns (n: Node)
    requires IsScan(t, input) && IsSnapshot(t.w.hex, input, now, s) && c in SkillsOf(t)
    ensures var g := Context(t.w.hex, input.installation);
      n in s.nodes && n.id == NodeId(g, ComponentParts(g, Owned(c, "", true))) && n.fingerprint == c.fingerprint
  {
    hide NodeBag, EdgeBag, PluginOwned, SkillsOf, ServersOf, CacheOf, GapsAt, MergedInto, FingerprintParts, Ordered;
    var g := Context(t.w.hex, input.installation);
    var o := Owned(c, "", true);
    assert c in Standalone(input);
    MapMember(Own("", true), Standalone(input), o);
    OriginInBag(g, PartsOf(g, input), FromComponent(o));
    n := ComponentNode(g, o);
    assert n in multiset(s.nodes);
  }

  /** The skill at one path, scanned before and after its text was changed, whether or not the name it
      declares changed with it: the snapshots differ, in fingerprint and in id. */
  lemma EditedSkillShows(t: ScanTarget, i: Input, nowI: int, s: Snapshot, c: SkillDescriptor,
                         u: ScanTarget, j: Input, nowJ: int, r: Snapshot, d: SkillDescriptor, path: Path, scope: string)
    requires ValidTarget(t) && ValidTarget(u) && SamePlace(t, u)
    requires IsScan(t, i) && IsScan(u, j) && IsSnapshot(t.w.hex, i, nowI, s) && IsSnapshot(u.w.hex, j, nowJ, r)
    requires c in SkillsOf(t) && DeclaredBy(t.w, path, scope, c)
    requires d in SkillsOf(u) && DeclaredBy(u.w, path, scope, d)
    requires WholeText(t.w, path) != WholeText(u.w, path)
    ensures s.id != r.id && s.fingerprint != r.fingerprint
  {
    hide IsScan, IsSnapshot, ValidHost, Injective, SkillsOf, SamePrints, NodeId, ComponentParts, DeclaredBy, KeyOf;
    InputsOf(t, i, u, j);
    FingerprintTells(t.w.hex, i, nowI, s, j, nowJ, r);
    if SamePrints(s, r) {
      var g := Context(t.w.hex, i.installation);
      var n := SkillNodeListed(t, i, nowI, s, c);
      var m := PrintIsThere(s, r, n);
      NodesOfBag(u.w.hex, j, nowJ, r, m);
      var e := SameIdSameKey(g, j, c, m);
      SkillKeys(u, j, c, e);
      OneSkillPerPath(u, t, path, scope, c, d, e);
      SameTextWhenSamePrint(t, u, path, scope, c, d);
    }
  }

  lemma InputsOf(t: ScanTarget, i: Input, u: ScanTarget, j: Input)
    requires SamePlace(t, u) && IsScan(t, i) && IsScan(u, j)
    ensures i.installation == j.installation
  {
  }

  lemma NodesOfBag(hex: Hex, input: Input, now: int, s: Snapshot, n: Node)
    requires IsSnapshot(hex, input, now, s) && n in s.nodes
    ensures var g := Context(hex, input.installation); n in NodeBag(g, PartsOf(g, input))
  {
    hide NodeBag, EdgeBag, PartsOf, FingerprintParts, Ordered;
    assert n in multiset(s.nodes);
  }

  lemma OneSkillPerPath(u: ScanTarget, t: ScanTarget, path: Path, scope: string, c: SkillDescriptor,
                        d: SkillDescriptor, e: Component)
    requires ValidHost(u.w.host) && SamePlace(t, u)
    requires DeclaredBy(t.w, path, scope, c) && DeclaredBy(u.w, path, scope, d)
    requires d in SkillsOf(u) && e in SkillsOf(u) && e.Skill? && e.path == c.path
    ensures e == d
  {
    hide ValidHost, SkillsOf;
    ScannedSkillsDistinct(u);
    SameKeySameElement<SkillDescriptor, string>(PathOf(), SkillsOf(u), e, d);
  }

  lemma SameTextWhenSamePrint(t: ScanTarget, u: ScanTarget, path: Path, scope: string, c: SkillDescriptor,
                              d: SkillDescriptor)
    requires Injective(t.w.hex) && SamePlace(t, u) && DeclaredBy(t.w, path, scope, c) && DeclaredBy(u.w, path, scope, d)
    ensures c.fingerprint == d.fingerprint ==> WholeText(t.w, path) == WholeText(u.w, path)
  {
    var a, b := ["skill-manifest", c.name, WholeText(t.w, path)], ["skill-manifest", d.name, WholeText(u.w, path)];
    assert a == b ==> a[2] == b[2];
  }
}
