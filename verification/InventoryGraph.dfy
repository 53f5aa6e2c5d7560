/** What BuildInventorySnapshot (internal/claudeadapter/inventory.go) must produce from its
    input, as bags: which nodes, which edges, which names collide. The builder that produces
    it step by step is in GraphBuilder. */
module InventoryGraph {
  import opened Ordering
  import opened CoverageGaps
  import opened InventoryTypes
  import opened GraphCollisions

  // ---------- descriptors ----------

  /** A declared component: the five descriptor types of the source, told apart by constructor. */
  datatype Component =
    | Skill(name: string, version: string, scope: string, enabled: bool, disabled: bool, path: string,
            fingerprint: string)
    | Command(name: string, scope: string, enabled: bool, path: string, fingerprint: string)
    | Subagent(name: string, scope: string, enabled: bool, path: string, fingerprint: string)
    | Hook(name: string, scope: string, enabled: bool, trusted: bool, path: string, fingerprint: string)
    | McpServer(name: string, scope: string, enabled: bool, tools: seq<string>, path: string, fingerprint: string)

  type SkillDescriptor = c: Component | c.Skill? witness Skill("", "", "", false, false, "", "")
  type CommandDescriptor = c: Component | c.Command? witness Command("", "", false, "", "")
  type SubagentDescriptor = c: Component | c.Subagent? witness Subagent("", "", false, "", "")
  type HookDescriptor = c: Component | c.Hook? witness Hook("", "", false, false, "", "")
  type ServerDescriptor = c: Component | c.McpServer? witness McpServer("", "", false, [], "", "")

  datatype Plugin = Plugin(
    name: string,
    version: string,
    scope: string,
    cachedOnly: bool,
    fromMarketplace: string,
    activeFor: string,
    path: string,
    fingerprint: string,
    skills: seq<SkillDescriptor>,
    commands: seq<CommandDescriptor>,
    subagents: seq<SubagentDescriptor>,
    hooks: seq<HookDescriptor>,
    servers: seq<ServerDescriptor>)

  datatype Marketplace = Marketplace(name: string, path: string, fingerprint: string)

  datatype Target = Target(path: string, absolute: bool)

  datatype Input = Input(
    installation: string,
    skills: seq<SkillDescriptor>,
    commands: seq<CommandDescriptor>,
    subagents: seq<SubagentDescriptor>,
    hooks: seq<HookDescriptor>,
    servers: seq<ServerDescriptor>,
    plugins: seq<Plugin>,
    marketplaces: seq<Marketplace>,
    targets: seq<Target>,
    gaps: Tally)

  /** The bundled components in the order they are visited. */
  function Components(p: Plugin): seq<Component>
  {
    p.skills + p.commands + p.subagents + p.hooks + p.servers
  }

  function Standalone(input: Input): seq<Component>
  {
    input.skills + input.commands + input.subagents + input.hooks + input.servers
  }

  // ---------- identifiers ----------

  type Hex = seq<string> -> string

  /** stableHex idealised: no two part lists share a digest. */
  ghost predicate Injective(hex: Hex)
  {
    forall a, b {:trigger hex(a), hex(b)} :: hex(a) == hex(b) ==> a == b
  }

  /** The digest function and the installation an identifier is derived under. */
  datatype Context = Context(hex: Hex, installation: string)

  function NodeId(g: Context, parts: seq<string>): string { "node_" + g.hex(parts) }

  function InstallationId(g: Context): string { NodeId(g, ["installation", g.installation]) }

  function Label(c: Component): string
  {
    match c
    case Skill(_, _, _, _, _, _, _) => "skill"
    case Command(_, _, _, _, _) => "command"
    case Subagent(_, _, _, _, _) => "subagent"
    case Hook(_, _, _, _, _, _) => "hook"
    case McpServer(_, _, _, _, _, _) => "mcp-server"
  }

  function Kind(c: Component): NodeKind
  {
    match c
    case Skill(_, _, _, _, _, _, _) => SkillIdentity
    case Command(_, _, _, _, _) => CustomCommandDefinition
    case Subagent(_, _, _, _, _) => SubagentDefinition
    case Hook(_, _, _, _, _, _) => HookDefinition
    case McpServer(_, _, _, _, _, _) => McpServerInstance
  }

  /** A component's own flags allow it, whoever owns it. */
  predicate OwnFlags(c: Component)
  {
    c.enabled && (c.Skill? ==> !c.disabled) && (c.Hook? ==> c.trusted)
  }

  /** A component together with its owner's node id (empty when standalone) and whether that
      owner passes on enablement. */
  datatype Owned = Owned(component: Component, owner: string, inherits: bool)

  function ComponentParts(g: Context, o: Owned): seq<string>
  {
    [Label(o.component), g.installation, o.component.name, o.component.scope, o.component.path, o.owner]
  }

  function ComponentNode(g: Context, o: Owned): Node
  {
    var c := o.component;
    Node(NodeId(g, ComponentParts(g, o)), Kind(c), c.name, if c.Skill? then c.version else "",
         c.scope, c.path, false, c.fingerprint)
  }

  function Tools(c: Component): seq<string>
  {
    if c.McpServer? then c.tools else []
  }

  function ToolNode(g: Context, server: Node): string -> Node
  {
    (tool: string) =>
      Node(NodeId(g, ["mcp-tool", server.id, tool]), McpTool, tool, "", server.scope, "", false,
           g.hex(["mcp-tool-fp", server.id, tool]))
  }

  function MarketNode(g: Context): Marketplace -> Node
  {
    (m: Marketplace) =>
      Node(NodeId(g, ["marketplace", m.name, m.path]), CacheArtifact, m.name, "", SCOPE_MARKETPLACE,
           m.path, false, m.fingerprint)
  }

  /** The node made up for a marketplace that only a plugin points at. */
  function MintedNode(g: Context): string -> Node
  {
    (name: string) =>
      Node(NodeId(g, ["marketplace", name]), CacheArtifact, name, "", SCOPE_MARKETPLACE, "", false,
           g.hex(["marketplace-fp", name]))
  }

  function PluginScope(p: Plugin): string
  {
    if p.cachedOnly then SCOPE_PLUGIN_CACHE else p.scope
  }

  function PluginParts(g: Context, p: Plugin): seq<string>
  {
    ["plugin", g.installation, p.name, PluginScope(p), p.path]
  }

  function PluginId(g: Context, p: Plugin): string { NodeId(g, PluginParts(g, p)) }

  function PluginNode(g: Context): Plugin -> Node
  {
    (p: Plugin) =>
      Node(PluginId(g, p), if p.cachedOnly then CacheArtifact else PluginPackage, p.name, p.version,
           PluginScope(p), p.path, p.cachedOnly, p.fingerprint)
  }

  const ADAPTER_VERSION := "0.1.0"

  function InstallationNode(g: Context): Node
  {
    Node(InstallationId(g), AgentInstallation, "claude", ADAPTER_VERSION, SCOPE_USER, "", false,
         g.hex(["installation-fp", g.installation]))
  }

  // ---------- edges ----------

  datatype Bucket =
    | SkillBucket | CommandBucket | SubagentBucket | HookBucket | McpBucket | PluginBucket | MarketplaceBucket

  datatype EdgeLabel =
    | ProvidesLabel | EnabledLabel | BundlesLabel | PluginEnabledLabel | ConfiguredLabel
    | CollisionLabel(bucket: Bucket)

  function LabelText(tag: EdgeLabel): string
  {
    match tag
    case ProvidesLabel => "mcp-provides"
    case EnabledLabel => "enabled-for"
    case BundlesLabel => "bundles"
    case PluginEnabledLabel => "plugin-enabled"
    case ConfiguredLabel => "plugin-configured-in-marketplace"
    case CollisionLabel(SkillBucket) => "skill-collision"
    case CollisionLabel(CommandBucket) => "command-collision"
    case CollisionLabel(SubagentBucket) => "subagent-collision"
    case CollisionLabel(HookBucket) => "hook-collision"
    case CollisionLabel(McpBucket) => "mcp-collision"
    case CollisionLabel(PluginBucket) => "plugin-collision"
    case CollisionLabel(MarketplaceBucket) => "marketplace-collision"
  }

  function EdgeKindOf(tag: EdgeLabel): EdgeKind
  {
    match tag
    case ProvidesLabel => Provides
    case EnabledLabel => EnabledFor
    case BundlesLabel => Bundles
    case PluginEnabledLabel => EnabledFor
    case ConfiguredLabel => ConfiguredIn
    case CollisionLabel(_) => CollidesWith
  }

  /** Every edge is named by its label and two parts. The second part is the target node except
      for a plugin's own enablement, whose part is the installation it is wired into. */
  function MakeEdge(g: Context, tag: EdgeLabel, from: string, part: string): Edge
  {
    Edge("edge_" + g.hex([LabelText(tag), from, part]), EdgeKindOf(tag), from,
         if tag == PluginEnabledLabel then InstallationId(g) else part)
  }

  // ---------- per component ----------

  predicate Enabled(o: Owned)
  {
    o.inherits && OwnFlags(o.component)
  }

  ghost function NodesOf(g: Context): Owned -> multiset<Node>
  {
    (o: Owned) =>
      multiset{ComponentNode(g, o)} + multiset(Map(ToolNode(g, ComponentNode(g, o)), Tools(o.component)))
  }

  function ProvidesEdge(g: Context, server: Node): string -> Edge
  {
    (tool: string) => MakeEdge(g, ProvidesLabel, server.id, ToolNode(g, server)(tool).id)
  }

  ghost function EdgesOf(g: Context): Owned -> multiset<Edge>
  {
    (o: Owned) =>
      var node := ComponentNode(g, o);
      (if Enabled(o) then multiset{MakeEdge(g, EnabledLabel, node.id, InstallationId(g))} else multiset{})
      + multiset(Map(ProvidesEdge(g, node), Tools(o.component)))
      + (if o.owner != "" then multiset{MakeEdge(g, BundlesLabel, o.owner, node.id)} else multiset{})
  }

  // ---------- per plugin ----------

  predicate Active(p: Plugin)
  {
    !p.cachedOnly && p.activeFor != ""
  }

  predicate Registered(marketplaces: seq<Marketplace>, name: string)
  {
    exists m :: m in marketplaces && m.name == name
  }

  /** The first marketplace of a name is the canonical one; an unregistered name is minted. */
  function MarketFor(g: Context, marketplaces: seq<Marketplace>, name: string): Node
  {
    if marketplaces == [] then MintedNode(g)(name)
    else if marketplaces[0].name == name then MarketNode(g)(marketplaces[0])
    else MarketFor(g, marketplaces[1..], name)
  }

  ghost function PluginEdges(g: Context, marketplaces: seq<Marketplace>): Plugin -> multiset<Edge>
  {
    (p: Plugin) =>
      (if Active(p) then multiset{MakeEdge(g, PluginEnabledLabel, PluginId(g, p), p.activeFor)} else multiset{})
      + (if p.fromMarketplace != ""
         then multiset{MakeEdge(g, ConfiguredLabel, PluginId(g, p), MarketFor(g, marketplaces, p.fromMarketplace).id)}
         else multiset{})
  }

  /** The marketplace names nodes are made up for, in order of first use. */
  function Minted(marketplaces: seq<Marketplace>, plugins: seq<Plugin>): seq<string>
  {
    if plugins == [] then []
    else
      var before, name := Minted(marketplaces, plugins[..|plugins| - 1]), plugins[|plugins| - 1].fromMarketplace;
      if name == "" || Registered(marketplaces, name) || name in before then before else before + [name]
  }

  /** Some plugin so far with this node id is active: what enabledOwners records. */
  predicate EnabledIn(g: Context, plugins: seq<Plugin>, id: string)
  {
    exists p :: p in plugins && Active(p) && PluginId(g, p) == id
  }

  function Own(owner: string, inherits: bool): Component -> Owned
  {
    (c: Component) => Owned(c, owner, inherits)
  }

  /** Bundled components with their owners; a plugin's children inherit from any plugin visited
      so far under the same node id. */
  function PluginOwned(g: Context, plugins: seq<Plugin>): seq<Owned>
  {
    if plugins == [] then []
    else
      var p := plugins[|plugins| - 1];
      PluginOwned(g, plugins[..|plugins| - 1])
      + Map(Own(PluginId(g, p), EnabledIn(g, plugins, PluginId(g, p))), Components(p))
  }

  // ---------- the whole graph before collisions ----------

  /** What has been added to a graph: components with owners, marketplaces, plugins. */
  datatype Parts = Parts(owned: seq<Owned>, marketplaces: seq<Marketplace>, plugins: seq<Plugin>)

  function PartsOf(g: Context, input: Input): Parts
  {
    Parts(Map(Own("", true), Standalone(input)) + PluginOwned(g, input.plugins), input.marketplaces, input.plugins)
  }

  ghost function NodeBag(g: Context, parts: Parts): multiset<Node>
  {
    multiset{InstallationNode(g)}
    + BagSum(NodesOf(g), parts.owned)
    + multiset(Map(MarketNode(g), parts.marketplaces))
    + multiset(Map(PluginNode(g), parts.plugins))
    + multiset(Map(MintedNode(g), Minted(parts.marketplaces, parts.plugins)))
  }

  ghost function PlainEdgeBag(g: Context, parts: Parts): multiset<Edge>
  {
    BagSum(EdgesOf(g), parts.owned) + BagSum(PluginEdges(g, parts.marketplaces), parts.plugins)
  }

  // ---------- collisions ----------

  function BucketOf(c: Component): Bucket
  {
    match c
    case Skill(_, _, _, _, _, _, _) => SkillBucket
    case Command(_, _, _, _, _) => CommandBucket
    case Subagent(_, _, _, _, _) => SubagentBucket
    case Hook(_, _, _, _, _, _) => HookBucket
    case McpServer(_, _, _, _, _, _) => McpBucket
  }

  function FiledComponents(g: Context, b: Bucket, owned: seq<Owned>): seq<Node>
  {
    if owned == [] then []
    else
      var before, o := FiledComponents(g, b, owned[..|owned| - 1]), owned[|owned| - 1];
      if BucketOf(o.component) == b then before + [ComponentNode(g, o)] else before
  }

  /** The nodes of one bucket, in the order they were recorded. */
  function Filed(g: Context, b: Bucket, parts: Parts): seq<Node>
  {
    match b
    case PluginBucket => Map(PluginNode(g), parts.plugins)
    case MarketplaceBucket =>
      Map(MarketNode(g), parts.marketplaces) + Map(MintedNode(g), Minted(parts.marketplaces, parts.plugins))
    case _ => FiledComponents(g, b, parts.owned)
  }

  function CollisionMaker(g: Context, b: Bucket): Maker
  {
    (from: string, to: string) => MakeEdge(g, CollisionLabel(b), from, to)
  }

  const BUCKETS: seq<Bucket> :=
    [SkillBucket, CommandBucket, SubagentBucket, HookBucket, McpBucket, PluginBucket, MarketplaceBucket]

  ghost function CollisionsOf(g: Context, parts: Parts): Bucket -> multiset<Edge>
  {
    (b: Bucket) => Collisions(CollisionMaker(g, b), Filed(g, b, parts))
  }

  ghost function EdgeBag(g: Context, parts: Parts): multiset<Edge>
  {
    PlainEdgeBag(g, parts) + BagSum(CollisionsOf(g, parts), BUCKETS)
  }

  // ---------- the snapshot ----------

  predicate EdgeLeq(x: Edge, y: Edge) { StringLeq(x.id, y.id) }

  function NodePrint(n: Node): seq<string> { [n.id, n.fingerprint] }

  function FingerprintNodes(nodes: seq<Node>): seq<string>
  {
    if nodes == [] then [] else FingerprintNodes(nodes[..|nodes| - 1]) + NodePrint(nodes[|nodes| - 1])
  }

  function FingerprintEdges(edges: seq<Edge>): seq<string>
  {
    if edges == [] then [] else FingerprintEdges(edges[..|edges| - 1]) + [edges[|edges| - 1].id]
  }

  function FingerprintParts(installation: string, nodes: seq<Node>, edges: seq<Edge>): seq<string>
  {
    [installation] + FingerprintNodes(nodes) + FingerprintEdges(edges)
  }

  /** What a built snapshot must be. sort.Slice fixes no order among equal ids, so the lists are
      any ordered arrangements of the right bags. */
  ghost predicate IsSnapshot(hex: Hex, input: Input, now: int, s: Snapshot)
  {
    var g := Context(hex, input.installation);
    var parts := PartsOf(g, input);
    && Ordered(NodeLeq, s.nodes)
    && multiset(s.nodes) == NodeBag(g, parts)
    && Ordered(EdgeLeq, s.edges)
    && multiset(s.edges) == EdgeBag(g, parts)
    && s.fingerprint == hex(FingerprintParts(input.installation, s.nodes, s.edges))
    && s.id == "claudesnap_" + hex(["claude-snapshot", input.installation, s.fingerprint])
    && s.installation == input.installation
    && s.observedAt == now
    && s.gapCount == TotalOf(input.gaps)
    && s.gapClasses == input.gaps
  }

  const MAX_TARGETS := 64

  datatype Outcome = Built(snapshot: Snapshot) | TooManyTargets | RelativeTarget

  ghost predicate IsOutcome(hex: Hex, input: Input, now: int, r: Outcome)
  {
    if |input.targets| > MAX_TARGETS then r == TooManyTargets
    else if exists t :: t in input.targets && !t.absolute then r == RelativeTarget
    else r.Built? && IsSnapshot(hex, input, now, r.snapshot)
  }
}
