# Verified model of the Kansoku evidence core

Kansoku observes coding agents and reports what they have installed, enabled and used. Its central claims
are that unknown is not zero, that nothing is lost silently, and that no false exact count is shown. This
Dafny 4.11 project models the code those claims rest on and proves what they come to.

`dafny verify dfyconfig.toml` checks every file.

## What is modelled

**Inventory pipeline** (scan, merge, graph, diff). `HostTree` is the read-only tree a scan walks: bounded
listings, bounded reads, refusals. `SkillScan`, `BundleScan`, `CacheScan`, `PluginMerge` and `HostScan` run the
source's loops over it, with `Visits` as what they share; `GraphBuilder` builds the entity graph in place,
`GraphCollisions` its pairwise collision edges, and `SnapshotDiff` compares two snapshots. What these must
produce is stated independently: `InventoryGraph` gives the graph as bags of nodes and edges, `CacheBounds` the
cache scan in closed form. `GraphIdentity`, `GraphOrder`, `MarketplaceOrder`, `GraphProperties` and
`GraphAdmission` prove that ids determine nodes and edges, when input order leaves no trace, who is enabled,
which nodes collide, and which graphs pass the structural conditions of ingestion. `CacheCoverage`, `ScanKeys`
and `InventoryPipeline` join the stages: one host gives one snapshot, enablement is decided end to end, and
"complete" says exactly which recorded causes did not occur. `ScanCauses`, `GapCauses`, `ScanContents` and
`GraphContents` say the same results of the host alone, field by field: what each gap class counts, which
plugins, servers and children an input holds, which nodes and edges a snapshot has. `SnapshotPrints` proves what
a fingerprint tells apart and `ScanEdits` that an edited skill shows in it. `ScanLosses` proves what "complete"
does not say: the list of losses that leave no gap, and that it is the whole list; `LossWitnesses` gives a host
for each.

**Codex App Server bridge.** `BridgeFrames` and `BridgeProjections` turn decoded frames into records and track
which responses are owned; `TerminalCalls` folds and reconciles MCP calls; `AppServerBridge` is the class with
health, checkpoint and pending requests that reads a whole stream into a sink that may fail at any call;
`BridgeRuns` states what a stream calls for and proves accounting and order-independence over every stream.
`BridgeEvidence` and `BridgeLifecycles` read the emitted records back: session, turn, tool, outcome, time and
lifecycle of each are those its frame states.

**Metric evaluators** (`Percentile`, `FormulaEvaluation`, `FormulaMeaning`), **append-only policy locks** as a
history of accepted updates (`PolicyLocks`, `LockMeaning`), **skill cost attribution** (`SkillCost`), the
**manifest gate** over JSON token streams (`ManifestGate`) and the **slot limiter** under any interleaving of
callers (`CycleSlots`). `Ordering` and `CoverageGaps` hold the shared vocabulary: orders, bags, and gap tallies.

## How it is stated

- Code that updates state is a class or a method with loops, proved against a function or predicate of its
  input; the theorems are about that function, for all inputs.
- `stableHex` and `PseudonymizePath` are injective function parameters, the keyed digest an injective
  function of a namespace and its parts; `Digests` shows that such functions exist. Paths are component lists.
  Strings are sequences of bytes.
- Go map iteration picks keys arbitrarily and `sort.Slice` is any ordered permutation, so every result is
  proved for all of them. Where the source's own result depends on such a choice (which of several terminals
  tied on the time survives), only what does not depend on it is claimed.
- What decodes bytes (settings, frontmatter, manifests, frames) is a parameter of the host or the frame type.

## What turned out different from the design

"Complete" is reported over hosts of which something is lost. `ScanLosses.NothingLostIff` is the exact
condition; these are its parts, each with a host on which the gap total is zero:

- A `settings.json` that is read but does not decode (`LossWitnesses.UndecodableSettings`), and the plugins or
  servers past the 256th it names (`LossWitnesses.CutSettings`).
- A refused, truncated or malformed `installed_plugins.json` (`LossWitnesses.RefusedPointer`: an enabled plugin
  with two cached versions loses the contents of both to cached-only copies) or `.claude-plugin/plugin.json`
  (`LossWitnesses.RefusedPackageManifest`: the version goes by its folder's name).
- A personal skill whose *declared* name is `user`, `repository`, `admin` or `system`, whatever its directory is
  called (`LossWitnesses.ReservedPersonalSkill`, `InventoryPipeline.PersonalSkillsAccounted`).
- The plugin-cache bounds, 64 marketplaces, 1024 versions, 8 per folder (`CacheCoverage.NothingDroppedIff`,
  `CacheCoverage.DroppedWithoutAGap`), and a listing past them that is refused
  (`LossWitnesses.RefusedPastTheLimit`).
- The bundle limits: 256 agents, commands, hook events or servers of a version, 128 tools of a server
  (`LossWitnesses.CutAgents`, `LossWitnesses.CutDeclarations`, `BundleScan.MarkdownAccounted`).

Elsewhere:

- A server that advertises a tool twice makes the built snapshot repeat a node id, which ingestion rejects
  (`GraphAdmission.NodesAdmittedIff`; a host for it in `LossWitnesses.ToolListedTwice`).
- MCP calls are identified by item id alone, so equal item ids in different threads are one call
  (`BridgeRuns.OneCallPerItemId`).
- Skill tokens and cost are summed over every native observation, so a call counts once exactly when its native
  observations after the first bring none (`SkillCost.CountedOnceIff`, `SkillCost.TwoNativeSightings`).
- With two marketplaces of one name, listing order decides the canonical one, and the snapshot depends on it
  exactly when some plugin points at that name (`MarketplaceOrder.MarketplaceOrderMatters`); a scan never
  produces two.
- A trusted lock file whose `locks` is a mapping or a string draws the prefix finding for every list, and one
  without a length makes the validator raise (`PolicyLocks.ValidatePolicyLocks`).

## Model

| member | source | states |
|---|---|---|
| `CoverageGaps.Gaps.Add` | internal/adaptersdk/types.go:344-349 | records one gap in place; a class outside the vocabulary counts as unparseable, never dropped |
| `CoverageGaps.Gaps.Merge` | internal/adaptersdk/types.go:352-356 | folds another tally in place, class by class, whatever order the map is walked in |
| `CoverageGaps.Gaps.Total` | internal/adaptersdk/types.go:359-365 | the loop's total is the sum over all classes |
| `CoverageGaps.TotalsAdd` | internal/adaptersdk/types.go:344-365 | totals add under Merge, and one Add raises the total by exactly one |
| `CoverageGaps.AddedMeans` | internal/adaptersdk/types.go:344-349 | one more of the class given, or of unparseable manifests when it is not one of the four |
| `HostTree.ListNames` | internal/claudeadapter/inventoryscan.go:265-273 | the names of the entries that are directories or links, sorted; nothing for a refused listing |
| `HostTree.NamesDistinct` | internal/adaptersdk/hostview.go:265-312 | a listing holds each name once and never more than 512 |
| `HostTree.NamesMean` | internal/claudeadapter/inventoryscan.go:265-273 | a name is listed exactly when a directory or a link has it, in byte order |
| `SkillScan.ScanSkillRoot` | internal/claudeadapter/inventoryscan.go:542-609 | the bounded scan of one skill root returns every skill found, sorted, and one gap per missed entry; since a listing holds at most 512 entries the 512-manifest cut-off drops nothing |
| `SkillScan.NothingSkippedSilently` | internal/claudeadapter/inventoryscan.go:542-609 | eligible entries = skills + gap total + plain directories without SKILL.md; a refused listing is exactly one gap |
| `SkillScan.GapsByCause` | internal/claudeadapter/inventoryscan.go:572-595 | each gap class counts exactly the entries missed for that reason |
| `SkillScan.ZeroMeansClean` | internal/claudeadapter/inventoryscan.go:542-609 | a gap total of zero holds exactly when the root is absent, or readable with no entry missed |
| `SkillScan.ScannedPathsDistinct` | internal/claudeadapter/inventoryscan.go:542-609 | no two skills of a scan share a manifest path |
| `SkillScan.ScannedSkillsOf` | internal/claudeadapter/inventoryscan.go:596-601 | every scanned skill has the root's scope, is enabled, and sits at some entry's SKILL.md |
| `ScanCauses.SkillGapsCounted` | internal/claudeadapter/inventoryscan.go:572-595 | said of the listing and the reads alone: each class counts its own cause, links that lead nowhere, files refused, files cut short, files that declare no name |
| `ScanCauses.SkillsDeclared` | internal/claudeadapter/inventoryscan.go:572-609 | the skills of a root are those its manifests declare, one each; an entry leaves neither skill nor gap exactly when it is a plain directory without the file |
| `ScanCauses.RefusedRootCounted` | internal/claudeadapter/inventoryscan.go:542-566 | a refused root is one gap of the class that says whether it is a link, and nothing is observed |
| `BundleScan.ScanMarkdownRoot` | internal/claudeadapter/pluginbundlescan.go:60-134 | the bounded scan of a markdown root returns, sorted, the components of the entries it comes to before its 256th, and one gap per missed entry |
| `BundleScan.MarkdownAccounted` | internal/claudeadapter/pluginbundlescan.go:78-128 | markdown files of a listed root = components + gap total + files gone at the read + files past the 256th component |
| `BundleScan.ZeroMeansMarkdownClean` | internal/claudeadapter/pluginbundlescan.go:60-134 | the gap total is zero exactly when the root is absent, or readable with no entry missed among those it came to |
| `ScanCauses.MarkdownDeclared` | internal/claudeadapter/pluginbundlescan.go:60-134 | the components are those of the files read whole before the scan stops, and each gap class counts its own cause among the files it came to |
| `ScanCauses.ManifestGapsCounted` | internal/claudeadapter/pluginbundlescan.go:171-257 | one gap of the fitting class for a hooks or server file refused, cut short or malformed, none otherwise |
| `BundleScan.ScanSubagents` | internal/claudeadapter/pluginbundlescan.go:136-148 | the agents root as subagent descriptors, with its gaps |
| `BundleScan.ScanCommands` | internal/claudeadapter/pluginbundlescan.go:150-162 | the commands root as command descriptors, with its gaps |
| `BundleScan.ScanHooks` | internal/claudeadapter/pluginbundlescan.go:171-207 | the first 256 hook events in byte order, one gap when the file is refused, truncated or malformed and none when it is absent |
| `BundleScan.ScanServers` | internal/claudeadapter/pluginbundlescan.go:213-257 | the first 256 servers in byte order, each with its first 128 tools, under the same gap rule |
| `BundleScan.BundleDistinct` | internal/claudeadapter/pluginbundlescan.go:60-257 | the children a version bundles have distinct keys |
| `CacheScan.ScanPluginCache` | internal/claudeadapter/inventoryscan.go:247-375 | the three nested loops under one budget return exactly the walk's marketplaces, candidates and gaps |
| `CacheScan.Walker.VisitVersion` | internal/claudeadapter/inventoryscan.go:320-358 | one version directory adds one candidate with the children of its five scans, merges their gaps in order and takes one unit of the budget |
| `CacheScan.Walker.VisitFolder` | internal/claudeadapter/inventoryscan.go:298-359 | at most eight sorted versions of a folder, fewer when the budget runs out; a refused listing is one gap |
| `CacheScan.Walker.VisitMarket` | internal/claudeadapter/inventoryscan.go:279-359 | the folders of one marketplace in order, until the budget is gone |
| `CacheBounds.WalkClosed` | internal/claudeadapter/inventoryscan.go:247-375 | closed form: the candidates are the first 1024 version directories in marketplace, folder and version order, with at most eight per folder |
| `CacheBounds.CacheIsBounded` | internal/claudeadapter/inventoryscan.go:31-48 | at most 1024 candidates and 64 marketplaces |
| `CacheBounds.EightPerFolder` | internal/claudeadapter/inventoryscan.go:313-318 | never more than eight candidates of one folder |
| `CacheBounds.AllPlacesDistinct` | internal/claudeadapter/inventoryscan.go:247-375 | no version directory is visited twice |
| `CacheBounds.ReportedIffContributed` | internal/claudeadapter/inventoryscan.go:361-372 | a marketplace is reported exactly when it contributed a candidate, and only once |
| `CacheCoverage.ZeroMeansCacheClean` | internal/claudeadapter/inventoryscan.go:247-375 | the cache scan's gap total is zero exactly when every listing and every child file it came to was read; a refused plugin.json leaves no gap and is not in the condition |
| `CacheCoverage.NothingDroppedIff` | internal/claudeadapter/inventoryscan.go:31-48 | every version directory becomes a candidate exactly when none of the three bounds takes effect |
| `CacheCoverage.DroppedWithoutAGap` | internal/claudeadapter/inventoryscan.go:313-318 | a concrete cache of nine versions loses one while the tally stays zero |
| `GapCauses.CacheCounted` | internal/claudeadapter/inventoryscan.go:247-375 | class by class, the cache's gaps are the refused listings of the marketplaces and of the folders come to before 1024 versions, and the gaps of those versions' children |
| `PluginMerge.GroupByName` | internal/claudeadapter/inventoryscan.go:446-449 | groups the candidates by composite name, each group in scan order |
| `PluginMerge.FindInstalled` | internal/claudeadapter/inventoryscan.go:475-483 | the index of the first candidate the active pointer names, or -1 |
| `PluginMerge.MergeName` | internal/claudeadapter/inventoryscan.go:458-494 | one name: the installed candidate is folded into the configured entry, the others stay cached only |
| `PluginMerge.Registry.MergeCandidates` | internal/claudeadapter/inventoryscan.go:445-512 | after all names every configured entry holds its installed candidate's data or is untouched, and exactly the other candidates are returned |
| `PluginMerge.CandidatesAreConserved` | internal/claudeadapter/inventoryscan.go:445-496 | each candidate ends up in exactly one place: returned cached only, or folded into its configured entry |
| `PluginMerge.MergingNeverEnables` | internal/claudeadapter/inventoryscan.go:498-512 | merging changes no entry's name, scope, cached-only flag or enablement, and replaces its contents by the installed candidate's |
| `PluginMerge.ExtraMember` | internal/claudeadapter/inventoryscan.go:462-494 | which candidates stay behind: all of an unconfigured name, all but the installed one of a configured name |
| `HostScan.SeedPlugins` | internal/claudeadapter/inventoryscan.go:145-161 | settings.json seeds one entry per considered name, enabled for the installation exactly when its flag is set |
| `HostScan.SeedServers` | internal/claudeadapter/inventoryscan.go:163-174 | one standalone server per considered name, enabled unless disabled |
| `HostScan.ReadActiveVersions` | internal/claudeadapter/inventoryscan.go:415-433 | the active pointer of each name is its first recorded version, when there is a non-empty one |
| `HostScan.ScanSkillRoots` | internal/claudeadapter/inventoryscan.go:178-185 | the four documented roots in order, their skills concatenated and their gaps merged |
| `HostScan.ListPlugins` | internal/claudeadapter/inventoryscan.go:210-223 | the configured entries and the cached-only candidates together, ordered by name and version, for any map order |
| `HostScan.ScanHostInventory` | internal/claudeadapter/inventoryscan.go:116-229 | the assembled input: settings, five skill roots, plugin cache, merge and all gaps; scanned says whether the settings decoded or a root was listed |
| `GapCauses.InputGapsCounted` | internal/claudeadapter/inventoryscan.go:116-229 | class by class, a scanned input's gaps are a refused settings file, the four scopes' roots, the personal root and the plugin cache, every cause counted once |
| `ScanContents.SeedMeans` | internal/claudeadapter/inventoryscan.go:145-161 | a plugin is seeded exactly when it is among the first 256 the settings list, with their flag and no contents |
| `ScanContents.ServersMean` | internal/claudeadapter/inventoryscan.go:163-174 | the standalone servers are exactly the first 256 the settings list, enabled when their disabled flag is not set |
| `ScanContents.ServerEnablement` | internal/claudeadapter/inventoryscan.go:163-174 | a settings server has an enablement edge in the built snapshot if and only if its disabled flag is not set |
| `ScanContents.CandidatesShow` | internal/claudeadapter/inventoryscan.go:320-358 | every candidate is a version directory with its declared name or its folder's, its path, and exactly the children its files declare |
| `ScanContents.FoldedMeans` | internal/claudeadapter/inventoryscan.go:445-496 | a version is folded in exactly when the settings list its name and it is the only one of the name, or the first that installed_plugins.json records |
| `ScanContents.PluginsShow` | internal/claudeadapter/inventoryscan.go:445-512 | every plugin of an input is a listed one, with the contents of the version folded in or bare, or the cached-only copy of a version not folded in |
| `ScanContents.ListedIsThere` | internal/claudeadapter/inventoryscan.go:145-161 | every plugin the settings list is in the input with its flag |
| `ScanContents.MarketplacesShow` | internal/claudeadapter/inventoryscan.go:361-372 | every marketplace is a directory of the cache from which some version came |
| `ScanContents.SkillsShown` | internal/claudeadapter/inventoryscan.go:178-204 | the standalone skills are exactly those declared under a documented scope's root, and those declared in the personal root under any name but a scope's |
| `ScanContents.InOrder` | internal/claudeadapter/inventoryscan.go:210-228 | skills and bundled components stand in name and path order, plugins in name and version order, marketplaces in name order |
| `ScanKeys.ScannedKeysDistinct` | internal/claudeadapter/inventoryscan.go:116-229 | whatever the host holds, one scan's descriptors have distinct keys and its marketplaces distinct names, so no plugin's pointer is ambiguous |
| `ScanKeys.ScannedSkillsDistinct` | internal/claudeadapter/inventoryscan.go:178-204 | documented and personal roots never yield the same manifest twice |
| `ScanKeys.CandidatePathsDistinct` | internal/claudeadapter/inventoryscan.go:247-375 | candidates have distinct paths, each with distinct children and a reported marketplace |
| `ScanKeys.PluginKeysDistinct` | internal/claudeadapter/inventoryscan.go:206-223 | merged entries and cached-only candidates have distinct graph keys |
| `InventoryPipeline.PipelineIsDeterministic` | internal/claudeadapter/inventory.go:191-515 | scanning one host twice and building the graph each time gives the same snapshot, whatever the map and sort orders were |
| `InventoryPipeline.CandidateIsCarried` | internal/claudeadapter/inventoryscan.go:445-512 | every cached version is carried by a scanned plugin: the configured one of its name exactly when it is the one folded in, a cached-only copy otherwise |
| `InventoryPipeline.CarrierIsUnique` | internal/claudeadapter/inventoryscan.go:445-512 | no other scanned plugin has the version's path, and none is listed twice |
| `InventoryPipeline.EnablementEndToEnd` | internal/claudeadapter/inventoryscan.go:445-512 | a component bundled in a cached version has an enablement edge exactly when settings enable the composite name for a named installation, that version is folded in, and its own flags allow it |
| `InventoryPipeline.ScannedNeverMints` | internal/claudeadapter/inventory.go:430-443 | the graph builder never makes up a marketplace for scanned input |
| `InventoryPipeline.CompleteIff` | internal/claudeadapter/stage2_stub.go:171-182 | complete is reported exactly when a component exists and none of the causes the scan records as a gap occurred; unknown exactly when no component exists |
| `InventoryPipeline.CompleteAccountsForRoots` | internal/claudeadapter/stage2_stub.go:171-182 | under complete, every entry of a documented root is a listed skill or a plain directory |
| `InventoryPipeline.PersonalSkillsAccounted` | internal/claudeadapter/inventoryscan.go:193-204 | the personal root loses exactly the skills whose declared name is a scope name, without a gap; everything else is accounted for |
| `InventoryPipeline.Inventory` | internal/claudeadapter/stage2_stub.go:42-48 | fails exactly without an installation id; otherwise the snapshot is the graph of a scan of the host, or of an empty input when no scan is possible |
| `ScanLosses.NothingLostIff` | internal/claudeadapter/inventoryscan.go:116-512 | everything on the host is in the input exactly when the gap total is zero and none of the silent losses occurs: undecodable or cut settings, a refused pointer or plugin.json, a reserved personal name, a cache bound, a refused listing past one, a bundle limit |
| `ScanLosses.CompleteLosesNothingIff` | internal/claudeadapter/stage2_stub.go:171-182 | under complete, nothing is lost exactly when none of the silent losses occurs |
| `LossWitnesses.UndecodableSettings` | internal/claudeadapter/inventoryscan.go:132-176 | a settings.json that does not decode: zero gap total, and what it enables is lost |
| `LossWitnesses.CutSettings` | internal/claudeadapter/inventoryscan.go:147-174 | any number of plugins or servers above 256: zero gap total, and the rest are lost |
| `LossWitnesses.RefusedPointer` | internal/claudeadapter/inventoryscan.go:415-433 | a refused installed_plugins.json: zero gap total, and an enabled plugin's two cached versions both stay cached only |
| `LossWitnesses.RefusedPackageManifest` | internal/claudeadapter/inventoryscan.go:395-400 | a refused plugin.json: zero gap total, and the declared name is lost |
| `LossWitnesses.RefusedPastTheLimit` | internal/claudeadapter/inventoryscan.go:279-297 | a 65th marketplace that cannot be listed: zero gap total |
| `LossWitnesses.CutAgents` | internal/claudeadapter/pluginbundlescan.go:78-84 | 257 agents of one version: zero gap total, and the last is lost |
| `LossWitnesses.CutDeclarations` | internal/claudeadapter/pluginbundlescan.go:171-257 | more than 256 hook events or servers, or 128 tools: zero gap total, and the rest are lost |
| `LossWitnesses.ReservedPersonalSkill` | internal/claudeadapter/inventoryscan.go:193-204 | a personal skill that declares itself user: found, dropped, and zero gap total |
| `LossWitnesses.ToolListedTwice` | internal/claudeadapter/pluginbundlescan.go:234-257 | a bundled server that lists a tool twice: every snapshot of the host repeats a node id |
| `GraphCollisions.CollisionEdges` | internal/claudeadapter/inventory.go:551-576 | the nested loops yield one edge per unordered pair of same-named nodes, over any map order |
| `GraphCollisions.CollisionsPermuted` | internal/claudeadapter/inventory.go:551-576 | the edges do not depend on the order in which nodes were recorded |
| `GraphCollisions.GroupCount` | internal/claudeadapter/inventory.go:558-573 | a group of n same-named nodes yields n(n-1)/2 edges |
| `GraphCollisions.PairCount` | internal/claudeadapter/inventory.go:551-576 | a list of nodes yields the sum of n(n-1)/2 over all the names it carries |
| `GraphProperties.BucketEdges` | internal/claudeadapter/inventory.go:479-485 | the edges of a snapshot that carry a bucket's label are exactly its filed nodes' pairs, n(n-1)/2 per declared name |
| `GraphCollisions.CollisionsAreExact` | internal/claudeadapter/inventory.go:551-576 | under distinct ids a pair is joined exactly when different and same-named, once, smaller id first |
| `GraphBuilder.Builder.AddComponent` | internal/claudeadapter/inventory.go:252-348 | one component adds its node, tool nodes and edges, and files it under its name |
| `GraphBuilder.Builder.AddMarketplace` | internal/claudeadapter/inventory.go:378-393 | the first marketplace of a name becomes canonical |
| `GraphBuilder.Builder.AddPluginNode` | internal/claudeadapter/inventory.go:395-448 | a plugin's node, enablement, minted marketplace and configured-in edge |
| `GraphBuilder.Builder.AddPlugin` | internal/claudeadapter/inventory.go:395-477 | a plugin with its children, which inherit from owners recorded so far |
| `GraphBuilder.Builder.AddCollisions` | internal/claudeadapter/inventory.go:479-485 | the seven buckets' collision edges are appended |
| `GraphBuilder.BuildInventorySnapshot` | internal/claudeadapter/inventory.go:191-515 | errors on too many or relative targets; otherwise exactly the specified bags of nodes and edges, ordered by id and fingerprinted |
| `GraphContents.NodesListed` | internal/claudeadapter/inventory.go:191-472 | a snapshot lists the installation, every declared component, advertised tool, plugin and marketplace with its own fields, and nothing else |
| `GraphContents.BundlesExactly` | internal/claudeadapter/inventory.go:536-542 | a bundling edge leads from a plugin to exactly the components it bundles |
| `GraphContents.ProvidesExactly` | internal/claudeadapter/inventory.go:318-348 | a server is joined to exactly the tools it advertises |
| `GraphContents.EnabledExactly` | internal/claudeadapter/inventory.go:244-348 | an enablement edge exactly when a component's own flags allow it and its plugin, if any, is active and not only cached |
| `GraphContents.CollidesExactly` | internal/claudeadapter/inventory.go:551-577 | two ids are joined by a collision edge, the smaller first, exactly when two things of one sort have one name |
| `GraphContents.IdsTell` | internal/claudeadapter/inventory.go:204-242 | ids agree exactly when installation, sort, name, scope, path and owner do |
| `GraphContents.ListsAreSorted` | internal/claudeadapter/inventory.go:487-488 | nodes and edges stand in the byte order of their ids |
| `GraphContents.ComponentsShown` | internal/claudeadapter/stage2_stub.go:198-205 | a snapshot has a node besides the installation's exactly when the input declares anything |
| `SnapshotPrints.FingerprintTells` | internal/claudeadapter/inventory.go:487-510 | two snapshots of one installation share fingerprint, and id, if and only if they list the same node ids with the same fingerprints and the same edge ids |
| `SnapshotPrints.InstallationsApart` | internal/claudeadapter/inventory.go:487-510 | snapshots of different installations share neither |
| `ScanEdits.EditedSkillShows` | internal/claudeadapter/inventoryscan.go:596-601 | a skill whose text changed between two scans gives two snapshot ids, end to end |
| `GraphIdentity.PluginOwnedMember` | internal/claudeadapter/inventory.go:395-477 | a bundled component inherits exactly when its own plugin is active |
| `GraphIdentity.SameIdSameNode` | internal/claudeadapter/inventory.go:204-443 | with injective digests and distinct keys an id belongs to one node, across all node sorts |
| `GraphIdentity.NodeIdsUnique` | internal/claudeadapter/inventory.go:204-443 | two nodes of the graph with one id are the same node |
| `GraphIdentity.EdgeIdsUnique` | internal/claudeadapter/inventory.go:529-576 | two edges with one id are the same edge |
| `GraphOrder.SnapshotIgnoresOrder` | internal/claudeadapter/inventory.go:191-515 | permuting standalone components, plugins, bundled components, marketplaces or tools changes nothing, as long as no name that a plugin points at is shared: same nodes, edges, fingerprint and id |
| `MarketplaceOrder.MarketplaceOrderMatters` | internal/claudeadapter/inventory.go:378-443 | every order of the marketplaces gives the same snapshot if and only if no name that some plugin points at is shared by two of them |
| `MarketplaceOrder.ConfiguredEdge` | internal/claudeadapter/inventory.go:430-448 | a plugin's configured-in edge in the graph is the one to the canonical marketplace of its name |
| `GraphProperties.EnablementIsInherited` | internal/claudeadapter/inventory.go:244-348 | components have an enablement edge exactly when their plugin is active and their own flags allow it; standalone ones by their flags alone; plugins exactly when active |
| `GraphProperties.CachedIsNeverEnabled` | internal/claudeadapter/inventory.go:419-429 | neither a cached-only package nor anything it bundles is ever enabled |
| `GraphProperties.SnapshotCollisions` | internal/claudeadapter/inventory.go:479-485 | in a snapshot two nodes of a bucket are joined exactly when different and same-named, by exactly one edge |
| `GraphAdmission.EndpointsAdmitted` | internal/dataplatform/inventory.go:524-532 | both ends of every edge are nodes of the snapshot, for every input and digest |
| `GraphAdmission.NodesAdmittedIff` | internal/dataplatform/inventory.go:512-519 | node ids are distinct exactly when no server advertises a tool twice |
| `GraphAdmission.EdgesAdmitted` | internal/dataplatform/inventory.go:520-536 | edge ids are then distinct as well |
| `InventoryPipeline.ScannedGraphIsSound` | internal/dataplatform/inventory.go:512-536 | a scan's graph has no dangling edge, and repeats an id only if a bundled server declaration lists a tool twice |
| `SnapshotDiff.Reconcile` | internal/claudeadapter/stage2_stub.go:146-187 | sorted added, removed and changed ids and the completeness, for any map order |
| `SnapshotDiff.DiffIsDetermined` | internal/claudeadapter/stage2_stub.go:146-187 | two results for the same snapshots are equal |
| `SnapshotDiff.DiffReplays` | internal/claudeadapter/stage2_stub.go:146-187 | (previous minus removed) plus added is current; the three lists are disjoint; everything else kept its fingerprint |
| `SnapshotDiff.DiffSwaps` | internal/claudeadapter/stage2_stub.go:146-187 | swapping the snapshots swaps added with removed and keeps changed |
| `SnapshotDiff.SelfDiffIsEmpty` | internal/claudeadapter/stage2_stub.go:146-187 | a snapshot does not differ from itself |
| `SnapshotDiff.DiffTriangle` | internal/claudeadapter/stage2_stub.go:146-187 | added and removed obey the triangle inclusion; changed does too once ids removed and re-added in between are counted |
| `SnapshotDiff.ChangedMeans` | internal/claudeadapter/stage2_stub.go:146-187 | an id is changed exactly when the last nodes with it differ in fingerprint |
| `SnapshotPrints.DiffShowsInId` | internal/claudeadapter/stage2_stub.go:146-187 | whatever a diff of two snapshots lists, their ids differ |
| `SnapshotDiff.HasComponentNodes` | internal/claudeadapter/stage2_stub.go:198-205 | the search finds a node that is not the installation exactly when there is one |
| `Digests.DigestsExist` | internal/claudeadapter/discover.go:191-198 | the idealised node digest and path pseudonym exist, so nothing rests on an impossible assumption |
| `Digests.KeyedDigestsExist` | internal/codexadapter/appserver_bridge.go:820-826 | so does the idealised keyed digest |
| `TerminalCalls.TerminalCall.Observe` | internal/codexadapter/appserver_bridge.go:193-205 | keeps the earliest start and the earliest terminal per outcome, in place |
| `TerminalCalls.TerminalCall.Reconcile` | internal/codexadapter/appserver_bridge.go:207-240 | one record per call: missing, single or contradictory terminal, any of the latest tied ones in the last case |
| `TerminalCalls.FoldSummarises` | internal/codexadapter/appserver_bridge.go:193-205 | folding the sightings keeps exactly the earliest start and, per outcome seen, the earliest terminal |
| `TerminalCalls.ReconciledIsVerdict` | internal/codexadapter/appserver_bridge.go:207-240 | outcome, key, time and category are decided by the set of observed facts: none, one or several outcomes |
| `TerminalCalls.VerdictIsUnique` | internal/codexadapter/appserver_bridge.go:207-240 | a set of facts has one verdict |
| `TerminalCalls.VerdictIgnoresReplays` | internal/codexadapter/appserver_bridge.go:193-240 | duplicating or reordering sightings changes nothing in the verdict |
| `BridgeProjections.ProjectSkillsList` | internal/codexadapter/appserver_bridge.go:537-571 | one record per enabled skill, or a rejection and no record |
| `BridgeProjections.ListIsAllOrNothing` | internal/codexadapter/appserver_bridge.go:537-571 | records are emitted exactly when there are at most 4096 enabled skills and all are valid |
| `BridgeLifecycles.ListedSkillsExposed` | internal/codexadapter/appserver_bridge.go:537-571 | the records of a list expose exactly its enabled skills, each with its name, owner and day |
| `BridgeProjections.Collector.AppendChildren` | internal/codexadapter/appserver_bridge.go:666-745 | appends all lifecycle records of the children, failing exactly when they exceed the limit |
| `BridgeProjections.ProjectPluginRead` | internal/codexadapter/appserver_bridge.go:573-747 | the four child loops yield the full record list or a rejection |
| `BridgeProjections.ReadIsAllOrNothing` | internal/codexadapter/appserver_bridge.go:573-747 | a valid response yields 1 + installed + enabled + per child (installed, plus enabled when both are) records when that is at most 4096, and none otherwise |
| `BridgeProjections.ChildrenAreOwned` | internal/codexadapter/appserver_bridge.go:666-706 | every child record carries the plugin as owner; it is redacted exactly when its own identity is unusable or too long |
| `BridgeLifecycles.LifecyclesReported` | internal/codexadapter/appserver_bridge.go:573-747 | a plugin is requested, installed iff installed and enabled iff enabled; a child is installed iff the plugin is and enabled iff both are; with identities, owners and digests written out |
| `BridgeFrames.ProjectMessage` | internal/codexadapter/appserver_bridge.go:459-486 | two records per skill input, unless one is invalid or there are more than sixteen |
| `BridgeFrames.PendingIsOutstanding` | internal/codexadapter/appserver_bridge.go:323-385 | over every frame sequence the pending map holds exactly the latest unanswered request taken on per id, and never more than 128 |
| `BridgeFrames.ResponsesAreOwned` | internal/codexadapter/appserver_bridge.go:323-352 | a response is projected only under the method of the latest unanswered request for its id; any other emits nothing and changes nothing |
| `BridgeFrames.EachRequestAnswersOnce` | internal/codexadapter/appserver_bridge.go:327-330 | a second response for an id is projected only if another request for it was taken on in between |
| `BridgeEvidence.NotificationRecord` | internal/codexadapter/appserver_bridge.go:386-535 | every record of a notification carries the session and turn pseudonyms of the thread and turn it names, its time in milliseconds, its tool or skill, outcome and duration |
| `BridgeEvidence.SameSessionIff` | internal/codexadapter/appserver_bridge.go:765-818 | records of two notifications share a session exactly when the notifications do, and a turn exactly when they share both |
| `BridgeEvidence.ProjectedIffStated` | internal/codexadapter/appserver_bridge.go:386-535 | a notification is projected exactly when it states all it must, to as many records as it calls for |
| `BridgeEvidence.RejectionNamed` | internal/codexadapter/appserver_bridge.go:312-535 | the category of every rejection, frame by frame |
| `BridgeEvidence.RequestTaken` | internal/codexadapter/appserver_bridge.go:353-385 | a request is taken on exactly when it has an id, what its method needs, and fewer than 128 are unanswered |
| `BridgeRuns.StreamVerdicts` | internal/codexadapter/appserver_bridge.go:112-240 | two streams with the same frames, in any order and with any repetitions, reconcile the same calls with the same outcome, key, time and category |
| `BridgeRuns.StreamAccounting` | internal/codexadapter/appserver_bridge.go:121-186 | accepted = immediate records + distinct calls; rejected = rejected frames + unresolved calls |
| `BridgeRuns.FinalIsUnresolved` | internal/codexadapter/appserver_bridge.go:166-176 | a call is also rejected exactly when it has no terminal outcome or several |
| `BridgeRuns.SightedFacts` | internal/codexadapter/appserver_bridge.go:143-153 | what is known of a call is the set of facts its frames state, whatever else the stream holds |
| `BridgeRuns.FinalKeysDiffer` | internal/codexadapter/appserver_bridge.go:207-240 | reconciled records of different calls never share an idempotency key |
| `BridgeRuns.OneCallPerItemId` | internal/codexadapter/appserver_bridge.go:143-146 | sightings belong to one call exactly when their item ids agree; thread and turn do not separate calls |
| `BridgeEvidence.FinalShowsFrame` | internal/codexadapter/appserver_bridge.go:142-178 | a reconciled record's session, turn, tool and time are those of one frame of the stream with its item id; outcome and duration are that frame's, or unknown and none when unresolved |
| `BridgeEvidence.FinalNamed` | internal/codexadapter/appserver_bridge.go:207-240 | missing_terminal without an outcome, contradictory_terminal with several, neither with one; the record's key stands for the call and that verdict |
| `BridgeEvidence.EmissionsMember` | internal/codexadapter/appserver_bridge.go:112-190 | what the sink is given before the calls is what some line of the stream causes, and all of it |
| `AppServerBridge.AppServerBridge.ProjectFrame` | internal/codexadapter/appserver_bridge.go:312-535 | one frame's records and the requests it leaves pending |
| `AppServerBridge.AppServerBridge.Answer` | internal/codexadapter/appserver_bridge.go:323-352 | a response forgets its request, even when it is an error |
| `AppServerBridge.AppServerBridge.Accept` | internal/codexadapter/appserver_bridge.go:242-263 | one acceptance moves the counter, the latest time and the checkpoint; a failing sink degrades the bridge and moves nothing else |
| `AppServerBridge.AppServerBridge.Reject` | internal/codexadapter/appserver_bridge.go:284-303 | one rejection moves its counter only when the sink took it |
| `AppServerBridge.CallBuffer.Observe` | internal/codexadapter/appserver_bridge.go:143-153 | each call's starts and terminals are folded under its key, keys in order of first sighting |
| `AppServerBridge.AppServerBridge.Deliver` | internal/codexadapter/appserver_bridge.go:142-158 | MCP call records are buffered, every other record goes to the sink at once, in order |
| `AppServerBridge.AppServerBridge.ReadLines` | internal/codexadapter/appserver_bridge.go:130-164 | the lines are handled in order until the context is cancelled, the frame limit is passed or the sink fails |
| `AppServerBridge.AppServerBridge.FinishCalls` | internal/codexadapter/appserver_bridge.go:166-178 | one reconciled record per call, in order of first sighting; when the sink fails it was given a beginning of exactly these |
| `AppServerBridge.AppServerBridge.Connect` | internal/codexadapter/appserver_bridge.go:112-186 | what the sink is given over a whole stream, for each of the six ways it can end, a sink failure while calls are reconciled included; after a finished run the lifecycle is reconciled exactly when nothing was ever rejected |
| `AppServerBridge.FinishedBooks` | internal/codexadapter/appserver_bridge.go:121-186 | counters and sink agree with the frames; there is one checkpoint per acceptance, they never go back, and each holds the latest time accepted up to and including its own record, as does the bridge at the end |
| `BridgeRuns.AcceptTimesAt` | internal/codexadapter/appserver_bridge.go:249-263 | the time after each acceptance is the latest of the events up to and including it |
| `AppServerBridge.BookedJoins` | internal/codexadapter/appserver_bridge.go:242-303 | books of consecutive stretches of a run add up |
| `Percentile.PercentileIgnoresOrder` | scripts/validate_contracts.py:544-554 | permuting the values changes nothing |
| `Percentile.PercentileAtIntegralRank` | scripts/validate_contracts.py:550-551 | at an integral rank the result is that order statistic, stated by counting and without sorting |
| `Percentile.PercentileInterpolates` | scripts/validate_contracts.py:544-554 | at rank k + f the result is (1 - f) times the k-th order statistic plus f times the next, both stated by counting |
| `Percentile.PercentileWithinRange` | scripts/validate_contracts.py:544-554 | the result lies between the smallest and the largest value |
| `Percentile.PercentileMonotoneInProbability` | scripts/validate_contracts.py:544-554 | a higher probability never lowers it |
| `Percentile.PercentileMonotoneInValues` | scripts/validate_contracts.py:544-554 | raising any value never lowers it, since sorting preserves pointwise dominance |
| `FormulaEvaluation.EvaluateFormulaCase` | scripts/validate_contracts.py:605-690 | the evaluation with its deduplication loop |
| `FormulaEvaluation.ReplaysChangeNothing` | scripts/validate_contracts.py:605-690 | repeating any records changes neither value, state nor error |
| `FormulaEvaluation.IncompleteRecordForcesUnknown` | scripts/validate_contracts.py:605-690 | any incomplete in-population record forces unknown |
| `FormulaEvaluation.ZeroIsObserved` | scripts/validate_contracts.py:605-690 | numeric_zero is reported exactly for the value zero, complete exactly for any other value, an error only with unknown |
| `FormulaEvaluation.EmptyPopulationIsNeverZero` | scripts/validate_contracts.py:605-690 | an empty population has no value and is never zero |
| `FormulaEvaluation.RatioInUnit` | scripts/validate_contracts.py:605-690 | a reported ratio lies in [0,1] |
| `FormulaEvaluation.ValueIffAnswerable` | scripts/validate_contracts.py:605-690 | a number is reported exactly when the case is well formed, countable and computable |
| `FormulaMeaning.AnswerMeans` | scripts/validate_contracts.py:605-690 | which number is reported: distinct identities, or total, mean, ratio, largest, latest or interpolated percentile over the first record of each identity |
| `FormulaMeaning.EvaluationMeans` | scripts/validate_contracts.py:605-690 | the value, state and error of every case, branch by branch, said of the records' fields |
| `FormulaEvaluation.DeduplicatedIdentities` | scripts/validate_contracts.py:605-690 | deduplication keeps every identity, each once |
| `PolicyLocks.ValidatePolicyLocks` | scripts/validate_claude.py:524-569 | the validator's findings, entry by entry and base by base, or that it raises: on a trusted field without a length or a version that is not a string |
| `PolicyLocks.SilentIffAccepted` | scripts/validate_claude.py:524-569 | no finding exactly when the file, its prefix, every entry and every base are acceptable; a trusted field that is no list never is |
| `LockMeaning.AcceptedMeans` | scripts/validate_claude.py:524-569 | nothing is found if and only if the file, its prefix and every entry is proper (a parsed version of a locked policy, that policy's own file, 64 lower-case hex digits), versions differ, and each base is locked 1..k with the current digest on top |
| `LockMeaning.FindingsMean` | scripts/validate_claude.py:524-569 | which findings a file draws, one by one |
| `LockMeaning.RaisesWhen` | scripts/validate_claude.py:539-561 | the validator raises exactly when it meets a version that is no text or compares the list with trusted locks without a length |
| `PolicyLocks.Contiguous` | scripts/validate_claude.py:562-565 | sorting and comparing with a range decides that each of 1..k occurs exactly once |
| `PolicyLocks.RunKeepsPrefix` | scripts/validate_claude.py:539-542 | over every run of accepted updates earlier lists, the trusted start included, stay prefixes |
| `PolicyLocks.RunKeepsOrdinals` | scripts/validate_claude.py:562-565 | every accepted state locks the ordinals 1..k of each base, each exactly once |
| `PolicyLocks.RunKeepsDigests` | scripts/validate_claude.py:546-561 | a version once locked keeps its registry and digest in every later state |
| `PolicyLocks.ChangedDigestNeedsNewVersion` | scripts/validate_claude.py:566-568 | a contract whose digest differs between two accepted states has a strictly larger top version in the later one |
| `LockMeaning.RunBindsFiles` | scripts/validate_claude.py:546-561 | over every run of accepted updates each entry ever locked names its own policy's file and carries a digest |
| `LockMeaning.RunStaysCurrent` | scripts/validate_claude.py:562-568 | in every state of a run each base's top version carries the digest current then |
| `SkillCost.AttributeSkillCost` | internal/claudeadapter/reconcile.go:303-388 | grouping, ordering and accumulation give each skill the figures read straight off its observations |
| `SkillCost.Conservation` | internal/claudeadapter/reconcile.go:303-388 | counted plus excluded observations are the valid ones of the skill; the count is its distinct calls |
| `SkillCost.NextObservation` | internal/claudeadapter/reconcile.go:303-388 | what one more observation adds to each figure: its own tokens and cost when native, a call when it is the first of it |
| `SkillCost.AttributionIgnoresOrder` | internal/claudeadapter/reconcile.go:303-388 | the order of observations changes nothing |
| `SkillCost.ResightingAddsNothing` | internal/claudeadapter/reconcile.go:303-388 | a non-native re-sighting of a known call changes neither count, tokens nor cost |
| `SkillCost.CountedOnceIff` | internal/claudeadapter/reconcile.go:303-388 | for non-negative figures, tokens and cost are counted once per call exactly when no native observation of a call after its first brings any |
| `SkillCost.TwoNativeSightings` | internal/claudeadapter/reconcile.go:303-388 | two native observations of one call with a token each: one call, two tokens |
| `ManifestGate.Decoder.RejectDuplicateNames` | internal/adaptersdk/manifest.go:203-248 | the recursive token loop gives the verdict and stops where the recursive specification does |
| `ManifestGate.ScanIsExact` | internal/adaptersdk/manifest.go:203-248 | on the tokens of any value followed by anything it consumes exactly that value, and succeeds exactly when no object repeats a name (section 4 of RFC 8259) |
| `ManifestGate.BoundIsExact` | internal/adaptersdk/manifest.go:161-196 | accepted exactly when height, container widths and string lengths are within their limits |
| `ManifestGate.StructuralGate` | internal/adaptersdk/manifest.go:17-40 | open exactly for one value with unique names, height at most 8, 256 entries a container and 4096 bytes a string; and which rejection otherwise |
| `CycleSlots.SlotPacer.AwaitCycleSlot` | cmd/kansoku/soak.go:219-231 | reserves the later of now and the next slot and moves the next slot one pace on |
| `CycleSlots.StepKeepsInvariant` | cmd/kansoku/soak.go:219-231 | every step of any caller, at any clock reading, keeps reservations a pace apart |
| `CycleSlots.RunKeepsInvariant` | cmd/kansoku/soak.go:219-231 | so does every run of interleaved callers |
| `CycleSlots.ReservationsPerWindow` | cmd/kansoku/soak.go:219-231 | any half-open window of length W holds at most ceil(W / pace) reservations |
| `CycleSlots.DefaultPaceStaysUnderPeerLimit` | cmd/kansoku/soak.go:182-188 | at 650 ms a minute holds at most 93, under 120 |
| `CycleSlots.BoundIsTight` | cmd/kansoku/soak.go:219-231 | for every pace, instant and width some run of the limiter holds exactly ceil(W / pace) reservations in the window |

## Left out

- BridgeProjections.ChildrenAreOwned: redaction counters, the invocation mode and the schema and contract fingerprints of a record are not modelled; they carry constants.
- TerminalCalls.TerminalCall.Reconcile: fields other than outcome, key, time, duration and category are those of the kept record, which among terminals tied on the time is any of them.
- CycleSlots.SlotPacer.AwaitCycleSlot: the sleep itself is the returned wait; no claim is made about when a sleeping caller wakes.
- SkillCost.AttributeSkillCost: cost is counted in whole units and token counts are unbounded, so float rounding and int64 overflow are not modelled.
- FormulaEvaluation.EvaluateFormulaCase: numbers are exact reals, and record values that Python could not hash or compare (nested lists or maps as identities) are outside the value type.
- PolicyLocks.ValidatePolicyLocks: a registry or digest that is not a string is outside the entry type; the version pattern is a partial parsing function, whose first group is taken to be a locked policy or not to match.
- HostScan.ScanHostInventory: path joining is list concatenation, so a directory name containing a separator is not modelled; file systems do not allow one.
- File-system probes, symlink resolution and allowed roots of the host view: they appear as refusals, absences and listings of at most 512 distinct names.
- JSON decoding, regular expressions, SHA-256 and HMAC, truncation of digests to a fixed length, and time formatting: parameters, injective where identity depends on them.
- Description sizes and display aliases of descriptors, received-at times of records, and gap counts of bridge health: carried, never decided on.
- The mutexes of the bridge: Connect is modelled for one caller at a time, Probe, Health and Checkpoint only read or set single fields.
- ReconcileLane, ReconcileSession, hook and telemetry tables, and the manifest's vocabulary checks: closed tables with one-branch rules.
- The other lock validators and contract checks under scripts: they repeat the modelled one or compare text.
- SLO evaluation, supply-chain and benchmark scripts, Docker, HTTP and database code: their results rest on systems outside this model.
