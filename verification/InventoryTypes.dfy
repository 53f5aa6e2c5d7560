/** The inventory entity graph (internal/adaptersdk/types.go): nodes, edges and the snapshot
    that carries them. Identifiers, names, versions and scopes are strings of bytes. */
module InventoryTypes {
  import opened CoverageGaps

  datatype NodeKind =
    | AgentInstallation
    | PluginPackage
    | SkillIdentity
    | McpServerInstance
    | McpTool
    | HookDefinition
    | CustomCommandDefinition
    | SubagentDefinition
    | CacheArtifact

  datatype Node = Node(
    id: string,
    kind: NodeKind,
    name: string,
    version: string,
    scope: string,
    path: string,
    cachedOnly: bool,
    fingerprint: string)

  datatype EdgeKind = Bundles | Provides | ConfiguredIn | EnabledFor | CollidesWith

  datatype Edge = Edge(id: string, kind: EdgeKind, from: string, to: string)

  datatype Snapshot = Snapshot(
    id: string,
    installation: string,
    observedAt: int,
    fingerprint: string,
    nodes: seq<Node>,
    edges: seq<Edge>,
    gapCount: int,
    gapClasses: Tally)

  const SCOPE_USER := "user"
  const SCOPE_MARKETPLACE := "marketplace"
  const SCOPE_PLUGIN_CACHE := "plugin_cache"

  /** hasComponentNodes: something besides the installation node itself. */
  predicate HasComponent(nodes: seq<Node>)
  {
    exists n :: n in nodes && n.kind != AgentInstallation
  }
}
