/** mergePluginCacheCandidates (internal/claudeadapter/inventoryscan.go): at most one cached
    version is folded into each configured plugin; every other candidate stays cached only. */
module PluginMerge {
  import opened Ordering
  import opened InventoryGraph

  type Configured = map<string, Plugin>

  /** The candidates of one composite name, in scan order. */
  function Group(candidates: seq<Plugin>, name: string): (r: seq<Plugin>)
    ensures forall c :: c in r <==> c in candidates && c.name == name
  {
    if candidates == [] then []
    else
      var before, last := Group(candidates[..|candidates| - 1], name), candidates[|candidates| - 1];
      assert candidates == candidates[..|candidates| - 1] + [last];
      if last.name == name then before + [last] else before
  }

  /** The position of the first candidate of a version, or the length if there is none. */
  function FirstVersion(group: seq<Plugin>, version: string): (k: nat)
    ensures k <= |group|
    ensures k < |group| ==> group[k].version == version
    ensures forall i :: 0 <= i < k ==> group[i].version != version
  {
    if group == [] then 0
    else if group[0].version == version then 0
    else 1 + FirstVersion(group[1..], version)
  }

  /** Which candidate of a group is the installed one: the only one, or the first that the active
      pointer names. None when the pointer is missing or names no candidate. */
  function InstalledAt(group: seq<Plugin>, active: map<string, string>, name: string): (r: Option<nat>)
    ensures r.Some? ==> r.value < |group|
  {
    if |group| == 1 then Some(0)
    else if name in active && FirstVersion(group, active[name]) < |group| then Some(FirstVersion(group, active[name]))
    else None
  }

  /** The candidate folded into a configured plugin, if any. */
  function Installed(candidates: seq<Plugin>, active: map<string, string>, name: string): (r: Option<Plugin>)
    ensures r.Some? ==> r.value in candidates && r.value.name == name
  {
    Chosen(Group(candidates, name), InstalledAt(Group(candidates, name), active, name))
  }

  function Chosen(group: seq<Plugin>, at: Option<nat>): (r: Option<Plugin>)
    requires at.Some? ==> at.value < |group|
    ensures r.Some? ==> r.value in group
  {
    if at.Some? then Some(group[at.value]) else None
  }

  /** A group without the chosen position. */
  function Unchosen(group: seq<Plugin>, at: Option<nat>): (r: seq<Plugin>)
    requires at.Some? ==> at.value < |group|
  {
    if at.Some? then group[..at.value] + group[at.value + 1..] else group
  }

  function BoolText(b: bool): string { if b then "true" else "false" }

  /** mergePluginCacheData: version, marketplace, location and contents come from the cache; name,
      scope, cached-only flag and enablement stay what the settings said. */
  function Enriched(hex: Hex, target: Plugin, cache: Plugin): (r: Plugin)
    ensures r.name == target.name && r.scope == target.scope
    ensures r.cachedOnly == target.cachedOnly && r.activeFor == target.activeFor
    ensures Components(r) == Components(cache)
  {
    target.(version := cache.version, fromMarketplace := cache.fromMarketplace, path := cache.path,
            skills := cache.skills, commands := cache.commands, subagents := cache.subagents,
            hooks := cache.hooks, servers := cache.servers,
            fingerprint :=
              hex(["plugin-config-cache", target.name, BoolText(target.activeFor != ""), cache.fingerprint]))
  }

  function CachedCopy(): Plugin -> Plugin
  {
    (p: Plugin) => p.(cachedOnly := true)
  }

  /** The configured entry of a name after merging. */
  function Folded(hex: Hex, target: Plugin, candidates: seq<Plugin>, active: map<string, string>): Plugin
  {
    var installed := Installed(candidates, active, target.name);
    if installed.Some? then Enriched(hex, target, installed.value) else target
  }

  /** The candidates of a name that stay cached only. */
  function LeftOver(configured: Configured, candidates: seq<Plugin>, active: map<string, string>,
                    name: string): seq<Plugin>
  {
    var group := Group(candidates, name);
    if name in configured then Unchosen(group, InstalledAt(group, active, name)) else group
  }

  ghost function LeftOverBag(configured: Configured, candidates: seq<Plugin>,
                             active: map<string, string>): string -> multiset<Plugin>
  {
    (name: string) => multiset(Map(CachedCopy(), LeftOver(configured, candidates, active, name)))
  }

  ghost predicate KeyedByName(configured: Configured)
  {
    forall name :: name in configured ==> configured[name].name == name
  }

  // ---------- the source's loops ----------

  function NamesOf(candidates: seq<Plugin>): set<string>
  {
    set c | c in candidates :: c.name
  }

  ghost predicate Grouped(candidates: seq<Plugin>, grouped: map<string, seq<Plugin>>)
  {
    && grouped.Keys == NamesOf(candidates)
    && forall name :: name in grouped ==> grouped[name] == Group(candidates, name)
  }

  method GroupByName(candidates: seq<Plugin>) returns (grouped: map<string, seq<Plugin>>)
    ensures Grouped(candidates, grouped)
  {
    grouped := map[];
    for i := 0 to |candidates|
      invariant Grouped(candidates[..i], grouped)
    {
      var c := candidates[i];
      assert candidates[..i + 1] == candidates[..i] + [c];
      GroupedGrows(candidates[..i], c, grouped);
      grouped := grouped[c.name := (if c.name in grouped then grouped[c.name] else []) + [c]];
    }
    assert candidates[..|candidates|] == candidates;
  }

  lemma GroupSnoc(front: seq<Plugin>, last: Plugin, name: string)
    ensures Group(front + [last], name) == Group(front, name) + if last.name == name then [last] else []
  {
    assert (front + [last])[..|front|] == front;
  }

  lemma GroupedGrows(front: seq<Plugin>, last: Plugin, grouped: map<string, seq<Plugin>>)
    requires Grouped(front, grouped)
    ensures var before := if last.name in grouped then grouped[last.name] else [];
      Grouped(front + [last], grouped[last.name := before + [last]])
  {
    hide Group;
    assert NamesOf(front + [last]) == NamesOf(front) + {last.name} by {
      forall name | name in NamesOf(front) + {last.name} ensures name in NamesOf(front + [last]) {
        if name == last.name { assert last in front + [last]; }
        else { var c :| c in front && c.name == name; assert c in front + [last]; }
      }
    }
    var grown := grouped[last.name := (if last.name in grouped then grouped[last.name] else []) + [last]];
    forall name | name in grown ensures grown[name] == Group(front + [last], name) {
      GroupSnoc(front, last, name);
      if name == last.name && name !in grouped { NobodyNamed(front, name); }
    }
  }

  lemma {:induction false} NobodyNamed(candidates: seq<Plugin>, name: string)
    requires forall c :: c in candidates ==> c.name != name
    ensures Group(candidates, name) == []
  {
    if candidates != [] {
      NobodyNamed(candidates[..|candidates| - 1], name);
    }
  }

  method FindInstalled(group: seq<Plugin>, active: map<string, string>, name: string) returns (mergedIndex: int)
    requires |group| != 1
    ensures mergedIndex == var at := InstalledAt(group, active, name); if at.Some? then at.value else -1
  {
    mergedIndex := -1;
    if name in active {
      var hash := active[name];
      for i := 0 to |group|
        invariant forall k :: 0 <= k < i ==> group[k].version != hash
      {
        if group[i].version == hash {
          FirstVersionIs(group, hash, i);
          return i;
        }
      }
    }
  }

  lemma {:induction false} FirstVersionIs(group: seq<Plugin>, version: string, i: nat)
    requires i < |group| && group[i].version == version
    requires forall k :: 0 <= k < i ==> group[k].version != version
    ensures FirstVersion(group, version) == i
  {
    if i > 0 {
      assert group[0].version != version;
      FirstVersionIs(group[1..], version, i - 1);
    }
  }

  /** The first n candidates of a group without the one at position m. */
  function Kept(group: seq<Plugin>, m: int, n: nat): seq<Plugin>
    requires n <= |group|
  {
    if n == 0 then []
    else Kept(group, m, n - 1) + if n - 1 == m then [] else [group[n - 1]]
  }

  lemma {:induction false} KeptIs(group: seq<Plugin>, m: int, n: nat)
    requires n <= |group|
    ensures Kept(group, m, n) == if 0 <= m < n then group[..m] + group[m + 1..n] else group[..n]
  {
    if n > 0 {
      KeptIs(group, m, n - 1);
      assert group[..n] == group[..n - 1] + [group[n - 1]];
      if 0 <= m < n - 1 {
        assert group[m + 1..n] == group[m + 1..n - 1] + [group[n - 1]];
      }
    }
  }

  lemma KeptIsUnchosen(group: seq<Plugin>, m: int)
    requires m < |group|
    ensures Kept(group, m, |group|) == Unchosen(group, if m >= 0 then Some(m) else None)
  {
    KeptIs(group, m, |group|);
    assert group[..|group|] == group;
    assert 0 <= m ==> group[m + 1..|group|] == group[m + 1..];
  }

  lemma SoleIsChosen(group: seq<Plugin>)
    requires |group| == 1
    ensures Unchosen(group, Some(0)) == [] && Map(CachedCopy(), []) == []
  {
    assert group[..0] + group[1..] == [];
  }

  /** Fold the chosen candidate into the configured entry, keep the others cached only. */
  method FoldGroup(hex: Hex, existing: Plugin, group: seq<Plugin>, mergedIndex: int)
      returns (target: Plugin, extra: seq<Plugin>)
    requires mergedIndex < |group|
    ensures target == if mergedIndex >= 0 then Enriched(hex, existing, group[mergedIndex]) else existing
    ensures extra == Map(CachedCopy(), Kept(group, mergedIndex, |group|))
  {
    hide Enriched;
    target, extra := existing, [];
    for i := 0 to |group|
      invariant target == if 0 <= mergedIndex < i then Enriched(hex, existing, group[mergedIndex]) else existing
      invariant extra == Map(CachedCopy(), Kept(group, mergedIndex, i))
    {
      if i == mergedIndex {
        target := Enriched(hex, target, group[i]);
        assert Kept(group, mergedIndex, i + 1) == Kept(group, mergedIndex, i);
        continue;
      }
      extra := extra + [group[i].(cachedOnly := true)];
      MapConcat(CachedCopy(), Kept(group, mergedIndex, i), [group[i]]);
      assert Map(CachedCopy(), [group[i]]) == [group[i].(cachedOnly := true)];
    }
  }

  /** One name: its installed candidate is folded in, the others stay cached only. */
  method MergeName(hex: Hex, configured: Configured, group: seq<Plugin>, active: map<string, string>, name: string,
                   ghost candidates: seq<Plugin>)
      returns (configured': Configured, extra: seq<Plugin>)
    requires KeyedByName(configured) && group == Group(candidates, name)
    ensures configured' == MergedOne(hex, configured, candidates, active, name)
    ensures extra == Map(CachedCopy(), LeftOver(configured, candidates, active, name))
  {
    hide Group, Enriched, FirstVersion, CachedCopy, Map, Unchosen, Kept;
    if name !in configured {
      configured' := configured;
      extra := CacheAll(group);
      return;
    }
    if |group| == 1 {
      configured', extra := configured[name := Enriched(hex, configured[name], group[0])], [];
      SoleIsChosen(group);
      return;
    }
    var mergedIndex := FindInstalled(group, active, name);
    var target;
    target, extra := FoldGroup(hex, configured[name], group, mergedIndex);
    configured' := configured[name := target];
    KeptIsUnchosen(group, mergedIndex);
  }

  /** The configured entries after the candidates of one name are merged. */
  function MergedOne(hex: Hex, configured: Configured, candidates: seq<Plugin>, active: map<string, string>,
                     name: string): Configured
  {
    if name in configured then configured[name := Folded(hex, configured[name], candidates, active)] else configured
  }

  method CacheAll(group: seq<Plugin>) returns (extra: seq<Plugin>)
    ensures extra == Map(CachedCopy(), group)
  {
    extra := [];
    for i := 0 to |group|
      invariant extra == Map(CachedCopy(), group[..i])
    {
      extra := extra + [group[i].(cachedOnly := true)];
    }
    assert group[..|group|] == group;
  }

  /** Every configured entry after merging the names done so far. */
  ghost predicate MergedSoFar(hex: Hex, start: Configured, now: Configured, candidates: seq<Plugin>,
                              active: map<string, string>, done: set<string>)
  {
    && now.Keys == start.Keys
    && forall name :: name in start ==>
         now[name] == if name in done then Folded(hex, start[name], candidates, active) else start[name]
  }

  /** The outcome of a merge: every configured entry enriched by its installed candidate or left
      alone, and every other candidate cached only. */
  ghost predicate MergeOutcome(hex: Hex, start: Configured, now: Configured, candidates: seq<Plugin>,
                               active: map<string, string>, extra: seq<Plugin>)
  {
    && now.Keys == start.Keys
    && (forall name :: name in start ==> now[name] == Folded(hex, start[name], candidates, active))
    && multiset(extra) == BagSum(LeftOverBag(start, candidates, active), KeyList(NamesOf(candidates)))
  }

  class Registry {
    /** The plugins seeded from settings.json, by composite name. */
    var configured: Configured

    constructor (configured: Configured)
      ensures this.configured == configured
    {
      this.configured := configured;
    }

    method MergeCandidates(hex: Hex, candidates: seq<Plugin>, active: map<string, string>) returns (extra: seq<Plugin>)
      requires KeyedByName(configured)
      modifies this
      ensures MergeOutcome(hex, old(configured), configured, candidates, active, extra)
    {
      hide Folded, LeftOver, MergedOne, Group, MergeOutcome, Map, Progress, NamesOf, KeyList, CachedCopy;
      var grouped := GroupByName(candidates);
      var names := SortedKeys(grouped.Keys);
      extra := [];
      ghost var start := configured;
      NothingMergedYet(hex, start, candidates, active);
      assert names[..0] == [];
      for i := 0 to |names|
        invariant KeyedByName(configured) && Progress(hex, start, configured, candidates, active, names[..i], extra)
      {
        var name := names[i];
        var more;
        ghost var before := configured;
        configured, more := MergeName(hex, configured, grouped[name], active, name, candidates);
        assert names[..i + 1] == names[..i] + [name];
        MergeStep(hex, start, before, configured, candidates, active, names[..i], name, extra, more);
        extra := extra + more;
      }
      assert names[..|names|] == names;
      KeyListUnique(grouped.Keys, names);
      EverythingMerged(hex, start, configured, candidates, active, names, extra);
    }
  }

  /** What has been achieved once the listed names are merged. */
  ghost predicate Progress(hex: Hex, start: Configured, now: Configured, candidates: seq<Plugin>,
                           active: map<string, string>, names: seq<string>, extra: seq<Plugin>)
  {
    && MergedSoFar(hex, start, now, candidates, active, Members(names))
    && multiset(extra) == BagSum(LeftOverBag(start, candidates, active), names)
  }

  lemma MergeStep(hex: Hex, start: Configured, before: Configured, now: Configured, candidates: seq<Plugin>,
                  active: map<string, string>, front: seq<string>, name: string, extra: seq<Plugin>, more: seq<Plugin>)
    requires KeyedByName(before) && Progress(hex, start, before, candidates, active, front, extra) && name !in front
    requires now == MergedOne(hex, before, candidates, active, name)
    requires more == Map(CachedCopy(), LeftOver(before, candidates, active, name))
    ensures KeyedByName(now) && Progress(hex, start, now, candidates, active, front + [name], extra + more)
  {
    hide MergedSoFar, LeftOverBag, MergedOne, LeftOver, BagSum, Map, CachedCopy;
    var bag := LeftOverBag(start, candidates, active);
    LeftOverIs(hex, before, start, candidates, active, Members(front), name, more);
    BagSumSnoc(bag, front, name);
    MergedKeepsName(hex, start, before, now, candidates, active, Members(front), name);
    assert Members(front + [name]) == Members(front) + {name};
  }

  lemma NothingMergedYet(hex: Hex, start: Configured, candidates: seq<Plugin>, active: map<string, string>)
    ensures Progress(hex, start, start, candidates, active, [], [])
  {
  }

  lemma LeftOverSameKeys(a: Configured, b: Configured, candidates: seq<Plugin>, active: map<string, string>,
                         name: string)
    requires a.Keys == b.Keys
    ensures LeftOver(a, candidates, active, name) == LeftOver(b, candidates, active, name)
  {
    hide InstalledAt, Group;
    assert name in a <==> name in b;
  }

  lemma LeftOverIs(hex: Hex, now: Configured, start: Configured, candidates: seq<Plugin>, active: map<string, string>,
                   done: set<string>, name: string, more: seq<Plugin>)
    requires MergedSoFar(hex, start, now, candidates, active, done)
    requires more == Map(CachedCopy(), LeftOver(now, candidates, active, name))
    ensures multiset(more) == LeftOverBag(start, candidates, active)(name)
  {
    hide LeftOver, Folded, CachedCopy;
    LeftOverSameKeys(now, start, candidates, active, name);
  }

  lemma MergedKeepsName(hex: Hex, start: Configured, before: Configured, now: Configured, candidates: seq<Plugin>,
                        active: map<string, string>, done: set<string>, name: string)
    requires KeyedByName(before) && MergedSoFar(hex, start, before, candidates, active, done) && name !in done
    requires now == MergedOne(hex, before, candidates, active, name)
    ensures KeyedByName(now) && MergedSoFar(hex, start, now, candidates, active, done + {name})
  {
    hide Installed;
  }

  lemma EverythingMerged(hex: Hex, start: Configured, now: Configured, candidates: seq<Plugin>,
                         active: map<string, string>, names: seq<string>, extra: seq<Plugin>)
    requires Progress(hex, start, now, candidates, active, names, extra) && KeyedByName(start)
    requires names == KeyList(NamesOf(candidates))
    ensures MergeOutcome(hex, start, now, candidates, active, extra)
  {
    hide InstalledAt, LeftOverBag, BagSum, Enriched, KeyList;
    KeyListIs(NamesOf(candidates));
    forall name | name in start ensures now[name] == Folded(hex, start[name], candidates, active) {
      if name !in names {
        NobodyNamed(candidates, name);
        NothingInstalled(active, name);
      }
    }
  }

  lemma NothingInstalled(active: map<string, string>, name: string)
    ensures InstalledAt([], active, name) == None
  {
  }

  // ---------- conservation ----------

  ghost function CachedBag(installed: Option<Plugin>): multiset<Plugin>
  {
    if installed.Some? then multiset{CachedCopy()(installed.value)} else multiset{}
  }

  ghost function InstalledBag(configured: Configured, candidates: seq<Plugin>,
                              active: map<string, string>): string -> multiset<Plugin>
  {
    (name: string) =>
      if name in configured then CachedBag(Installed(candidates, active, name)) else multiset{}
  }

  ghost function GroupBag(candidates: seq<Plugin>): string -> multiset<Plugin>
  {
    (name: string) => multiset(Map(CachedCopy(), Group(candidates, name)))
  }

  lemma OneNameConserves(configured: Configured, candidates: seq<Plugin>, active: map<string, string>, name: string)
    ensures GroupBag(candidates)(name) ==
      LeftOverBag(configured, candidates, active)(name) + InstalledBag(configured, candidates, active)(name)
  {
    hide InstalledAt, CachedCopy, Group, GroupBag, LeftOverBag, InstalledBag, Chosen, Unchosen, Map, CachedBag;
    var group := Group(candidates, name);
    GroupBagIs(candidates, name);
    LeftOverBagIs(configured, candidates, active, name);
    InstalledBagIs(configured, candidates, active, name);
    ChoiceConserves(group, InstalledAt(group, active, name));
  }

  lemma ChoiceConserves(group: seq<Plugin>, at: Option<nat>)
    requires at.Some? ==> at.value < |group|
    ensures multiset(Map(CachedCopy(), group)) ==
      multiset(Map(CachedCopy(), Unchosen(group, at))) + CachedBag(Chosen(group, at))
  {
    hide CachedCopy;
    if at.Some? { MapWithout(CachedCopy(), group, at.value); }
  }

  lemma GroupBagIs(candidates: seq<Plugin>, name: string)
    ensures GroupBag(candidates)(name) == multiset(Map(CachedCopy(), Group(candidates, name)))
  {
    hide Group, CachedCopy, Map;
  }

  lemma LeftOverBagIs(configured: Configured, candidates: seq<Plugin>, active: map<string, string>, name: string)
    ensures LeftOverBag(configured, candidates, active)(name) ==
      multiset(Map(CachedCopy(), LeftOver(configured, candidates, active, name)))
  {
    hide LeftOver, CachedCopy, Map;
  }

  lemma InstalledBagIs(configured: Configured, candidates: seq<Plugin>, active: map<string, string>, name: string)
    ensures InstalledBag(configured, candidates, active)(name) ==
      if name in configured then CachedBag(Installed(candidates, active, name)) else multiset{}
  {
    hide Installed, CachedBag;
  }

  lemma {:induction false} NamesConserve(configured: Configured, candidates: seq<Plugin>, active: map<string, string>,
                                         names: seq<string>)
    ensures BagSum(GroupBag(candidates), names) ==
      BagSum(LeftOverBag(configured, candidates, active), names)
      + BagSum(InstalledBag(configured, candidates, active), names)
  {
    hide GroupBag, LeftOverBag, InstalledBag;
    if names != [] {
      var n := |names| - 1;
      NamesConserve(configured, candidates, active, names[..n]);
      OneNameConserves(configured, candidates, active, names[n]);
    }
  }

  lemma {:induction false} GroupsCover(candidates: seq<Plugin>, names: seq<string>)
    requires NoDuplicates(names) && forall c :: c in candidates ==> c.name in names
    ensures BagSum(GroupBag(candidates), names) == multiset(Map(CachedCopy(), candidates))
  {
    hide CachedCopy, Group, GroupBag, BagSum;
    if candidates == [] {
      EmptyGroups(names);
    } else {
      var n := |candidates| - 1;
      var front, last := candidates[..n], candidates[n];
      assert candidates == front + [last] && last in candidates;
      GroupsCover(front, names);
      OneMoreCandidate(front, last, names);
      assert Map(CachedCopy(), candidates) == Map(CachedCopy(), front) + [CachedCopy()(last)];
    }
  }

  lemma {:induction false} EmptyGroups(names: seq<string>)
    ensures BagSum(GroupBag([]), names) == multiset{}
  {
    if names != [] {
      EmptyGroups(names[..|names| - 1]);
      assert Map(CachedCopy(), Group([], names[|names| - 1])) == [];
    }
  }

  lemma {:induction false} OneMoreCandidate(front: seq<Plugin>, last: Plugin, names: seq<string>)
    requires NoDuplicates(names)
    ensures BagSum(GroupBag(front + [last]), names) ==
      BagSum(GroupBag(front), names) + if last.name in names then multiset{CachedCopy()(last)} else multiset{}
  {
    hide CachedCopy, GroupBag;
    if names != [] {
      var n := |names| - 1;
      assert names == names[..n] + [names[n]];
      OneMoreCandidate(front, last, names[..n]);
      OneMoreInGroup(front, last, names[n]);
    }
  }

  lemma OneMoreInGroup(front: seq<Plugin>, last: Plugin, name: string)
    ensures GroupBag(front + [last])(name) ==
      GroupBag(front)(name) + if last.name == name then multiset{CachedCopy()(last)} else multiset{}
  {
    hide CachedCopy, Group, Map;
    var group := Group(front, name);
    GroupSnoc(front, last, name);
    assert group + [] == group;
    MapConcat(CachedCopy(), group, [last]);
    assert Map(CachedCopy(), [last]) == [CachedCopy()(last)];
  }

  /** Each candidate ends up in exactly one place: cached only, or folded into the configured
      plugin of its name. */
  lemma CandidatesAreConserved(hex: Hex, start: Configured, now: Configured, candidates: seq<Plugin>,
                               active: map<string, string>, extra: seq<Plugin>)
    requires MergeOutcome(hex, start, now, candidates, active, extra)
    ensures multiset(Map(CachedCopy(), candidates)) ==
      multiset(extra) + BagSum(InstalledBag(start, candidates, active), KeyList(NamesOf(candidates)))
  {
    hide LeftOverBag, InstalledBag, CachedCopy, Folded, KeyList;
    var names := KeyList(NamesOf(candidates));
    KeyListIs(NamesOf(candidates));
    NamesConserve(start, candidates, active, names);
    GroupsCover(candidates, names);
  }

  /** Merging changes no entry's name, scope, cached-only flag or enablement. */
  lemma MergingNeverEnables(hex: Hex, start: Configured, now: Configured, candidates: seq<Plugin>,
                            active: map<string, string>, extra: seq<Plugin>, name: string)
    requires MergeOutcome(hex, start, now, candidates, active, extra) && KeyedByName(start) && name in start
    ensures name in now && now[name].name == name && now[name].scope == start[name].scope
    ensures now[name].cachedOnly == start[name].cachedOnly && now[name].activeFor == start[name].activeFor
    ensures Components(now[name]) ==
      (var installed := Installed(candidates, active, name);
       if installed.Some? then Components(installed.value) else Components(start[name]))
  {
    hide Installed, LeftOverBag, Components;
  }

  /** Which candidates stay behind: those of unconfigured names, and of configured ones all but
      the installed one. */
  lemma ExtraMember(hex: Hex, start: Configured, now: Configured, candidates: seq<Plugin>, active: map<string, string>,
                    extra: seq<Plugin>, p: Plugin)
    requires MergeOutcome(hex, start, now, candidates, active, extra)
    ensures p in extra <==> exists name, c :: c in LeftOver(start, candidates, active, name) && p == CachedCopy()(c)
  {
    hide LeftOver, CachedCopy, Folded, KeyList;
    var names := KeyList(NamesOf(candidates));
    KeyListIs(NamesOf(candidates));
    BagSumMember(LeftOverBag(start, candidates, active), names, p);
    assert p in extra <==> p in multiset(extra);
    if p in extra {
      var i :| 0 <= i < |names| && p in LeftOverBag(start, candidates, active)(names[i]);
      LeftOverMember(start, candidates, active, names[i], p);
    }
    if name, c :| c in LeftOver(start, candidates, active, name) && p == CachedCopy()(c) {
      LeftOverMember(start, candidates, active, name, p);
      LeftOverNames(start, candidates, active, name, c);
      assert name in NamesOf(candidates) && name in names;
      var i :| 0 <= i < |names| && names[i] == name;
      assert p in LeftOverBag(start, candidates, active)(names[i]);
    }
  }

  lemma LeftOverMember(configured: Configured, candidates: seq<Plugin>, active: map<string, string>, name: string,
                       p: Plugin)
    ensures p in LeftOverBag(configured, candidates, active)(name) <==>
      exists c :: c in LeftOver(configured, candidates, active, name) && p == CachedCopy()(c)
  {
    hide LeftOver, CachedCopy;
    var s := LeftOver(configured, candidates, active, name);
    if p in multiset(Map(CachedCopy(), s)) {
      var i :| 0 <= i < |s| && Map(CachedCopy(), s)[i] == p;
      assert s[i] in s;
    }
    if c :| c in s && p == CachedCopy()(c) {
      var i :| 0 <= i < |s| && s[i] == c;
      assert Map(CachedCopy(), s)[i] == p;
    }
  }

  lemma LeftOverNames(configured: Configured, candidates: seq<Plugin>, active: map<string, string>, name: string,
                      c: Plugin)
    requires c in LeftOver(configured, candidates, active, name)
    ensures c in candidates && c.name == name
  {
    hide InstalledAt;
    assert c in Group(candidates, name);
  }
}
