/** What a snapshot's fingerprint and id tell apart: exactly the nodes' ids and fingerprints and the
    edges' ids. An edited component therefore shows, and so does every difference a diff reports. */
module SnapshotPrints {
  import opened Ordering
  import opened InventoryTypes
  import opened InventoryGraph
  import opened GraphIdentity
  import opened SnapshotDiff

  // ---------- the printed list is read back ----------

  datatype Print = Print(id: string, fingerprint: string)

  function PrintOf(): Node -> Print
  {
    (n: Node) => Print(n.id, n.fingerprint)
  }

  function IdOfEdge(): Edge -> string
  {
    (e: Edge) => e.id
  }

  lemma {:induction false} PrintedNodes(nodes: seq<Node>)
    ensures |FingerprintNodes(nodes)| == 2 * |nodes|
    ensures forall k :: 0 <= k < |nodes| ==> FingerprintNodes(nodes)[2 * k] == nodes[k].id
    ensures forall k :: 0 <= k < |nodes| ==> FingerprintNodes(nodes)[2 * k + 1] == nodes[k].fingerprint
  {
    if nodes != [] {
      var n := |nodes| - 1;
      PrintedNodes(nodes[..n]);
      var front := FingerprintNodes(nodes[..n]);
      assert FingerprintNodes(nodes) == front + [nodes[n].id, nodes[n].fingerprint];
      forall k | 0 <= k < |nodes|
        ensures FingerprintNodes(nodes)[2 * k] == nodes[k].id
        ensures FingerprintNodes(nodes)[2 * k + 1] == nodes[k].fingerprint
      {
        if k < n { assert front[2 * k] == nodes[..n][k].id && front[2 * k + 1] == nodes[..n][k].fingerprint; }
      }
    }
  }

  lemma {:induction false} PrintedEdges(edges: seq<Edge>)
    ensures FingerprintEdges(edges) == Map(IdOfEdge(), edges)
  {
    if edges != [] {
      var n := |edges| - 1;
      PrintedEdges(edges[..n]);
      assert Map(IdOfEdge(), edges) == Map(IdOfEdge(), edges[..n]) + [edges[n].id];
    }
  }

  lemma PrintedParts(installation: string, nodes: seq<Node>, edges: seq<Edge>)
    ensures var parts := FingerprintParts(installation, nodes, edges);
      && |parts| == 1 + 2 * |nodes| + |edges| && parts[0] == installation
      && (forall k :: 0 <= k < |nodes| ==> parts[1 + 2 * k] == nodes[k].id && parts[2 + 2 * k] == nodes[k].fingerprint)
      && forall k :: 0 <= k < |edges| ==> parts[1 + 2 * |nodes| + k] == edges[k].id
  {
    hide FingerprintNodes, FingerprintEdges;
    PrintedNodes(nodes);
    PrintedEdges(edges);
    var parts := FingerprintParts(installation, nodes, edges);
    forall k | 0 <= k < |nodes| ensures parts[1 + 2 * k] == nodes[k].id && parts[2 + 2 * k] == nodes[k].fingerprint {
      assert parts[1 + 2 * k] == FingerprintNodes(nodes)[2 * k];
      assert parts[2 + 2 * k] == FingerprintNodes(nodes)[2 * k + 1];
    }
  }

  predicate NodeText(id: string) { |id| >= 5 && id[0] == 'n' }

  predicate EdgeText(id: string) { |id| >= 5 && id[0] == 'e' }

  ghost predicate Texts(nodes: seq<Node>, edges: seq<Edge>)
  {
    (forall n :: n in nodes ==> NodeText(n.id)) && forall e :: e in edges ==> EdgeText(e.id)
  }

  /** Where the nodes end and the edges begin can be read off the list. */
  lemma CountsTell(i: string, nodes: seq<Node>, edges: seq<Edge>, more: seq<Node>, others: seq<Edge>)
    requires Texts(nodes, edges) && Texts(more, others) && |nodes| < |more|
    ensures FingerprintParts(i, nodes, edges) != FingerprintParts(i, more, others)
  {
    hide FingerprintParts;
    PrintedParts(i, nodes, edges);
    PrintedParts(i, more, others);
    var n, p, q := |nodes|, FingerprintParts(i, nodes, edges), FingerprintParts(i, more, others);
    if |p| == |q| {
      assert p[1 + 2 * n] == edges[0].id && q[1 + 2 * n] == more[n].id;
      assert edges[0] in edges && more[n] in more;
    }
  }

  lemma SamePartsSameCount(i: string, nodes: seq<Node>, edges: seq<Edge>, more: seq<Node>, others: seq<Edge>)
    requires Texts(nodes, edges) && Texts(more, others)
    requires FingerprintParts(i, nodes, edges) == FingerprintParts(i, more, others)
    ensures |nodes| == |more|
  {
    hide FingerprintParts, Texts;
    if |nodes| < |more| { CountsTell(i, nodes, edges, more, others); }
    if |more| < |nodes| { CountsTell(i, more, others, nodes, edges); }
  }

  lemma PartsTell(i: string, nodes: seq<Node>, edges: seq<Edge>, more: seq<Node>, others: seq<Edge>)
    requires Texts(nodes, edges) && Texts(more, others)
    ensures FingerprintParts(i, nodes, edges) == FingerprintParts(i, more, others) <==>
      Map(PrintOf(), nodes) == Map(PrintOf(), more) && Map(IdOfEdge(), edges) == Map(IdOfEdge(), others)
  {
    hide FingerprintParts, Texts;
    PrintedParts(i, nodes, edges);
    PrintedParts(i, more, others);
    var p, q := FingerprintParts(i, nodes, edges), FingerprintParts(i, more, others);
    if p == q {
      SamePartsSameCount(i, nodes, edges, more, others);
      forall k | 0 <= k < |nodes| ensures PrintOf()(nodes[k]) == PrintOf()(more[k]) {
        assert p[1 + 2 * k] == q[1 + 2 * k] && p[2 + 2 * k] == q[2 + 2 * k];
      }
      forall k | 0 <= k < |edges| ensures edges[k].id == others[k].id {
        assert p[1 + 2 * |nodes| + k] == q[1 + 2 * |nodes| + k];
      }
    }
    if Map(PrintOf(), nodes) == Map(PrintOf(), more) && Map(IdOfEdge(), edges) == Map(IdOfEdge(), others) {
      SameLists(nodes, more, edges, others);
      PrintsDecideNodes(nodes, more);
      PrintsDecideParts(i, nodes, edges, more, others);
    }
  }

  lemma SameLists(nodes: seq<Node>, more: seq<Node>, edges: seq<Edge>, others: seq<Edge>)
    requires Map(PrintOf(), nodes) == Map(PrintOf(), more) && Map(IdOfEdge(), edges) == Map(IdOfEdge(), others)
    ensures |nodes| == |more| && |edges| == |others|
  {
    assert |Map(PrintOf(), nodes)| == |Map(PrintOf(), more)| && |Map(IdOfEdge(), edges)| == |Map(IdOfEdge(), others)|;
  }

  lemma {:induction false} PrintsDecideNodes(nodes: seq<Node>, more: seq<Node>)
    requires |nodes| == |more| && Map(PrintOf(), nodes) == Map(PrintOf(), more)
    ensures FingerprintNodes(nodes) == FingerprintNodes(more)
  {
    if nodes != [] {
      var n := |nodes| - 1;
      assert Map(PrintOf(), nodes)[n] == Map(PrintOf(), more)[n];
      assert Map(PrintOf(), nodes[..n]) == Map(PrintOf(), nodes)[..n];
      assert Map(PrintOf(), more[..n]) == Map(PrintOf(), more)[..n];
      PrintsDecideNodes(nodes[..n], more[..n]);
    }
  }

  lemma PrintsDecideParts(i: string, nodes: seq<Node>, edges: seq<Edge>, more: seq<Node>, others: seq<Edge>)
    requires FingerprintNodes(nodes) == FingerprintNodes(more) && Map(IdOfEdge(), edges) == Map(IdOfEdge(), others)
    ensures FingerprintParts(i, nodes, edges) == FingerprintParts(i, more, others)
  {
    PrintedEdges(edges);
    PrintedEdges(others);
  }

  // ---------- snapshots ----------

  lemma SnapshotTexts(hex: Hex, input: Input, now: int, s: Snapshot)
    requires IsSnapshot(hex, input, now, s)
    ensures Texts(s.nodes, s.edges)
  {
    hide NodeBag, EdgeBag, PartsOf, FingerprintParts, Ordered, OriginNode, Has;
    var g := Context(hex, input.installation);
    forall n | n in s.nodes ensures NodeText(n.id) {
      assert n in multiset(s.nodes);
      var origin := NodeHasOrigin(g, PartsOf(g, input), n);
      OriginId(g, origin);
    }
    forall e | e in s.edges ensures EdgeText(e.id) {
      assert e in multiset(s.edges);
      EdgesAreLabelled(g, PartsOf(g, input), e);
      var tag, from, part :| e == MakeEdge(g, tag, from, part);
    }
  }

  lemma SnapshotIdTells(hex: Hex, i: string, p: string, q: string)
    requires Injective(hex)
    ensures "claudesnap_" + hex(["claude-snapshot", i, p]) == "claudesnap_" + hex(["claude-snapshot", i, q]) <==> p == q
  {
    var a, b := ["claude-snapshot", i, p], ["claude-snapshot", i, q];
    PrefixCancels("claudesnap_", hex(a), hex(b));
    assert a == b ==> a[2] == b[2];
  }

  lemma PrefixCancels(prefix: string, x: string, y: string)
    ensures prefix + x == prefix + y <==> x == y
  {
    assert (prefix + x)[|prefix|..] == x && (prefix + y)[|prefix|..] == y;
  }

  ghost predicate SamePrints(s: Snapshot, t: Snapshot)
  {
    Map(PrintOf(), s.nodes) == Map(PrintOf(), t.nodes) && Map(IdOfEdge(), s.edges) == Map(IdOfEdge(), t.edges)
  }

  /** Two snapshots of one installation have the same fingerprint, and the same id, if and only if
      they list the same node ids with the same fingerprints and the same edge ids. */
  lemma FingerprintTells(hex: Hex, i: Input, nowI: int, s: Snapshot, j: Input, nowJ: int, t: Snapshot)
    requires Injective(hex) && i.installation == j.installation
    requires IsSnapshot(hex, i, nowI, s) && IsSnapshot(hex, j, nowJ, t)
    ensures s.fingerprint == t.fingerprint <==> SamePrints(s, t)
    ensures s.id == t.id <==> SamePrints(s, t)
  {
    hide NodeBag, EdgeBag, PartsOf, FingerprintParts, Ordered, Texts;
    SnapshotTexts(hex, i, nowI, s);
    SnapshotTexts(hex, j, nowJ, t);
    PartsTell(i.installation, s.nodes, s.edges, t.nodes, t.edges);
    SnapshotIdTells(hex, i.installation, s.fingerprint, t.fingerprint);
  }

  /** Snapshots of different installations never share an id. */
  lemma InstallationsApart(hex: Hex, i: Input, nowI: int, s: Snapshot, j: Input, nowJ: int, t: Snapshot)
    requires Injective(hex) && i.installation != j.installation
    requires IsSnapshot(hex, i, nowI, s) && IsSnapshot(hex, j, nowJ, t)
    ensures s.id != t.id && s.fingerprint != t.fingerprint
  {
    hide NodeBag, EdgeBag, PartsOf, FingerprintParts, Ordered;
    PrintedParts(i.installation, s.nodes, s.edges);
    PrintedParts(j.installation, t.nodes, t.edges);
    var a, b := ["claude-snapshot", i.installation, s.fingerprint], ["claude-snapshot", j.installation, t.fingerprint];
    assert a[1] != b[1];
    PrefixCancels("claudesnap_", hex(a), hex(b));
    var p := FingerprintParts(i.installation, s.nodes, s.edges);
    var q := FingerprintParts(j.installation, t.nodes, t.edges);
    assert p[0] != q[0];
  }

  // ---------- what a diff reports shows in the id ----------

  lemma {:induction false} SamePrintsSameLast(s: seq<Node>, t: seq<Node>)
    requires |s| == |t| && Map(PrintOf(), s) == Map(PrintOf(), t)
    ensures Ids(s) == Ids(t)
    ensures forall id :: id in Ids(s) ==> LastWith(s, id).fingerprint == LastWith(t, id).fingerprint
  {
    if s != [] {
      var n := |s| - 1;
      assert s == s[..n] + [s[n]] && t == t[..n] + [t[n]];
      assert Map(PrintOf(), s)[n] == Map(PrintOf(), t)[n];
      assert Map(PrintOf(), s[..n]) == Map(PrintOf(), s)[..n] && Map(PrintOf(), t[..n]) == Map(PrintOf(), t)[..n];
      SamePrintsSameLast(s[..n], t[..n]);
      assert Ids(s) == Ids(s[..n]) + {s[n].id} && Ids(t) == Ids(t[..n]) + {t[n].id} by {
        IdsSnoc(s[..n], s[n]);
        IdsSnoc(t[..n], t[n]);
      }
    }
  }

  lemma IdsSnoc(front: seq<Node>, last: Node)
    ensures Ids(front + [last]) == Ids(front) + {last.id}
  {
    forall id | id in Ids(front) + {last.id} ensures id in Ids(front + [last]) {
      if id == last.id {
        assert last in front + [last];
      } else {
        var n :| n in front && n.id == id;
        assert n in front + [last];
      }
    }
  }

  /** Whatever a diff of two snapshots of one installation lists, their ids differ. */
  lemma DiffShowsInId(hex: Hex, i: Input, nowI: int, s: Snapshot, j: Input, nowJ: int, t: Snapshot, d: Diff)
    requires Injective(hex) && i.installation == j.installation
    requires IsSnapshot(hex, i, nowI, s) && IsSnapshot(hex, j, nowJ, t) && IsDiff(s, t, d)
    requires d.added != [] || d.removed != [] || d.changed != []
    ensures s.id != t.id && s.fingerprint != t.fingerprint
  {
    hide IsSnapshot;
    FingerprintTells(hex, i, nowI, s, j, nowJ, t);
    if SamePrints(s, t) { NothingToReport(s, t, d); }
  }

  lemma NothingToReport(s: Snapshot, t: Snapshot, d: Diff)
    requires SamePrints(s, t) && IsDiff(s, t, d)
    ensures d.added == [] && d.removed == [] && d.changed == []
  {
    assert |Map(PrintOf(), s.nodes)| == |Map(PrintOf(), t.nodes)|;
    SamePrintsSameLast(s.nodes, t.nodes);
    assert AddedIds(s, t) == {} && AddedIds(t, s) == {} && ChangedIds(s, t) == {};
    ListsNothing(d.added);
    ListsNothing(d.removed);
    ListsNothing(d.changed);
  }

  lemma ListsNothing(ids: seq<string>)
    ensures Lists(ids, {}) ==> ids == []
  {
    assert ids != [] ==> ids[0] in ids;
  }
}
