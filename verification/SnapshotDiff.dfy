/** Adapter.Reconcile (internal/claudeadapter/stage2_stub.go): the difference of two inventory
    snapshots and the completeness the newer one can claim. */
module SnapshotDiff {
  import opened Ordering
  import opened InventoryTypes

  datatype Completeness = Complete | Partial | Unknown

  datatype Diff = Diff(
    snapshot: string,
    added: seq<string>,
    removed: seq<string>,
    changed: seq<string>,
    completeness: Completeness)

  function Ids(nodes: seq<Node>): set<string>
  {
    set n | n in nodes :: n.id
  }

  /** The node that a map filled in list order holds for an id: the last one. */
  function LastWith(nodes: seq<Node>, id: string): Node
    requires id in Ids(nodes)
  {
    var n := |nodes| - 1;
    if nodes[n].id == id then nodes[n]
    else
      assert id in Ids(nodes[..n]) by {
        var node :| node in nodes && node.id == id;
        assert nodes == nodes[..n] + [nodes[n]];
      }
      LastWith(nodes[..n], id)
  }

  predicate SameFingerprint(previous: seq<Node>, current: seq<Node>, id: string)
    requires id in Ids(previous) && id in Ids(current)
  {
    LastWith(previous, id).fingerprint == LastWith(current, id).fingerprint
  }

  /** The ids of a list, in byte order, each once. */
  ghost predicate Lists(ids: seq<string>, members: set<string>)
  {
    Ordered(StringLeq, ids) && NoDuplicates(ids) && forall id :: id in ids <==> id in members
  }

  function AddedIds(previous: Snapshot, current: Snapshot): set<string>
  {
    Ids(current.nodes) - Ids(previous.nodes)
  }

  function ChangedIds(previous: Snapshot, current: Snapshot): set<string>
  {
    set id | id in Ids(previous.nodes) * Ids(current.nodes) && !SameFingerprint(previous.nodes, current.nodes, id)
  }

  /** What a result of comparing two snapshots must be. */
  ghost predicate IsDiff(previous: Snapshot, current: Snapshot, d: Diff)
  {
    && d.snapshot == current.id
    && Lists(d.added, AddedIds(previous, current))
    && Lists(d.removed, AddedIds(current, previous))
    && Lists(d.changed, ChangedIds(previous, current))
    && (d.completeness == Unknown <==> !HasComponent(current.nodes))
    && (d.completeness == Complete <==> HasComponent(current.nodes) && current.gapCount <= 0)
  }

  // ---------- the source's loops ----------

  method NodesById(nodes: seq<Node>) returns (byId: map<string, Node>)
    ensures byId.Keys == Ids(nodes)
    ensures forall id :: id in byId ==> byId[id] == LastWith(nodes, id)
  {
    byId := map[];
    for i := 0 to |nodes|
      invariant byId.Keys == Ids(nodes[..i])
      invariant forall id :: id in byId ==> byId[id] == LastWith(nodes[..i], id)
    {
      assert nodes[..i + 1][..i] == nodes[..i];
      assert nodes[..i + 1] == nodes[..i] + [nodes[i]];
      byId := byId[nodes[i].id := nodes[i]];
    }
    assert nodes[..|nodes|] == nodes;
  }

  method HasComponentNodes(nodes: seq<Node>) returns (found: bool)
    ensures found <==> HasComponent(nodes)
  {
    for i := 0 to |nodes|
      invariant forall k :: 0 <= k < i ==> nodes[k].kind == AgentInstallation
    {
      if nodes[i].kind != AgentInstallation {
        return true;
      }
    }
    return false;
  }

  /** The loop over the current nodes. Map iteration order is arbitrary in Go, and here. */
  method AddedAndChanged(before: map<string, Node>, now: map<string, Node>)
      returns (added: seq<string>, changed: seq<string>)
    ensures NoDuplicates(added) && forall id :: id in added <==> id in now && id !in before
    ensures NoDuplicates(changed)
    ensures forall id :: id in changed <==> id in now && id in before && before[id].fingerprint != now[id].fingerprint
  {
    added, changed := [], [];
    var rest := now.Keys;
    while rest != {}
      invariant rest <= now.Keys && NoDuplicates(added) && NoDuplicates(changed)
      invariant forall id :: id in added <==> id in now && id !in rest && id !in before
      invariant forall id :: id in changed <==>
        id in now && id !in rest && id in before && before[id].fingerprint != now[id].fingerprint
      decreases rest
    {
      var id :| id in rest;
      if id !in before {
        added := added + [id];
      } else if before[id].fingerprint != now[id].fingerprint {
        changed := changed + [id];
      }
      rest := rest - {id};
    }
  }

  /** The loop over the previous nodes. */
  method Removed(before: map<string, Node>, now: map<string, Node>) returns (removed: seq<string>)
    ensures NoDuplicates(removed) && forall id :: id in removed <==> id in before && id !in now
  {
    removed := [];
    var rest := before.Keys;
    while rest != {}
      invariant rest <= before.Keys && NoDuplicates(removed)
      invariant forall id :: id in removed <==> id in before && id !in rest && id !in now
      decreases rest
    {
      var id :| id in rest;
      if id !in now {
        removed := removed + [id];
      }
      rest := rest - {id};
    }
  }

  /** sort.Strings on a duplicate-free list. */
  method SortIds(ids: seq<string>, ghost members: set<string>) returns (sorted: seq<string>)
    requires NoDuplicates(ids) && forall id :: id in ids <==> id in members
    ensures Lists(sorted, members)
  {
    StringLeqIsTotalOrder();
    sorted := SortBy(ids, StringLeq);
    BagDecidesDuplicates(ids, sorted);
    forall id ensures id in sorted <==> id in members {
      assert id in sorted <==> id in multiset(sorted);
      assert id in ids <==> id in multiset(ids);
    }
  }

  method Reconcile(previous: Snapshot, current: Snapshot) returns (d: Diff)
    ensures IsDiff(previous, current, d)
  {
    var before := NodesById(previous.nodes);
    var now := NodesById(current.nodes);
    var added, changed := AddedAndChanged(before, now);
    var removed := Removed(before, now);
    added := SortIds(added, AddedIds(previous, current));
    removed := SortIds(removed, AddedIds(current, previous));
    changed := SortIds(changed, ChangedIds(previous, current));
    var component := HasComponentNodes(current.nodes);
    var completeness := Complete;
    if !component {
      completeness := Unknown;
    } else if current.gapCount > 0 {
      completeness := Partial;
    }
    d := Diff(current.id, added, removed, changed, completeness);
  }

  // ---------- exactness ----------

  lemma ListsOnce(ids: seq<string>, other: seq<string>, members: set<string>)
    requires Lists(ids, members) && Lists(other, members)
    ensures ids == other
  {
    NoDuplicatesSameBag(ids, other);
    forall x, y | x in ids && y in ids && StringLeq(x, y) && StringLeq(y, x) ensures x == y {
      StringLeqAntisymmetric(x, y);
    }
    OrderedUnique(StringLeq, ids, other);
  }

  /** Replaying the same two snapshots gives the same result. */
  lemma DiffIsDetermined(previous: Snapshot, current: Snapshot, d: Diff, e: Diff)
    requires IsDiff(previous, current, d) && IsDiff(previous, current, e)
    ensures d == e
  {
    ListsOnce(d.added, e.added, AddedIds(previous, current));
    ListsOnce(d.removed, e.removed, AddedIds(current, previous));
    ListsOnce(d.changed, e.changed, ChangedIds(previous, current));
  }

  /** Taking the removed ids from the previous ones and adding the added ones gives the current
      ids; the three lists share nothing, and the unchanged rest kept its fingerprint. */
  lemma DiffReplays(previous: Snapshot, current: Snapshot, d: Diff)
    requires IsDiff(previous, current, d)
    ensures Ids(previous.nodes) - Members(d.removed) + Members(d.added) == Ids(current.nodes)
    ensures Members(d.added) !! Members(d.removed) !! Members(d.changed)
    ensures Members(d.removed) <= Ids(previous.nodes) && Members(d.added) !! Ids(previous.nodes)
    ensures forall id :: id in Ids(previous.nodes) && id !in d.removed && id !in d.changed ==>
      id in Ids(current.nodes) && SameFingerprint(previous.nodes, current.nodes, id)
  {
    assert Members(d.added) == AddedIds(previous, current);
    assert Members(d.removed) == AddedIds(current, previous);
    assert Members(d.changed) == ChangedIds(previous, current);
  }

  lemma DiffSwaps(previous: Snapshot, current: Snapshot, d: Diff, back: Diff)
    requires IsDiff(previous, current, d) && IsDiff(current, previous, back)
    ensures back.added == d.removed && back.removed == d.added && back.changed == d.changed
  {
    ListsOnce(back.added, d.removed, AddedIds(current, previous));
    ListsOnce(back.removed, d.added, AddedIds(previous, current));
    assert ChangedIds(previous, current) == ChangedIds(current, previous);
    ListsOnce(back.changed, d.changed, ChangedIds(previous, current));
  }

  lemma SelfDiffIsEmpty(snapshot: Snapshot, d: Diff)
    requires IsDiff(snapshot, snapshot, d)
    ensures d.added == d.removed == d.changed == []
  {
    assert AddedIds(snapshot, snapshot) == {} && ChangedIds(snapshot, snapshot) == {};
    ListsOnce(d.added, [], {});
    ListsOnce(d.removed, [], {});
    ListsOnce(d.changed, [], {});
  }

  /** Going through an intermediate snapshot hides no addition, removal or change. */
  lemma DiffTriangle(a: Snapshot, b: Snapshot, c: Snapshot, ab: Diff, bc: Diff, ac: Diff)
    requires IsDiff(a, b, ab) && IsDiff(b, c, bc) && IsDiff(a, c, ac)
    ensures Members(ac.added) <= Members(ab.added) + Members(bc.added)
    ensures Members(ac.removed) <= Members(ab.removed) + Members(bc.removed)
    ensures Members(ac.changed) <= Members(ab.changed) + Members(bc.changed) + (Members(ab.removed) * Members(bc.added))
  {
    forall id | id in ac.changed
      ensures id in Members(ab.changed) + Members(bc.changed) + (Members(ab.removed) * Members(bc.added))
    {
      assert id in ChangedIds(a, c);
      if id in Ids(b.nodes) {
        assert id in ab.changed <==> !SameFingerprint(a.nodes, b.nodes, id);
        assert id in bc.changed <==> !SameFingerprint(b.nodes, c.nodes, id);
      }
    }
  }

  // ---------- which nodes are compared ----------

  /** The node at k is the last of the list with the id. */
  ghost predicate LastOf(nodes: seq<Node>, k: int, id: string)
  {
    0 <= k < |nodes| && nodes[k].id == id && forall j :: k < j < |nodes| ==> nodes[j].id != id
  }

  lemma {:induction false} LastWithIsLast(nodes: seq<Node>, id: string) returns (k: int)
    requires id in Ids(nodes)
    ensures LastOf(nodes, k, id) && LastWith(nodes, id) == nodes[k]
  {
    var n := |nodes| - 1;
    if nodes[n].id == id {
      k := n;
    } else {
      var node :| node in nodes && node.id == id;
      assert nodes == nodes[..n] + [nodes[n]];
      k := LastWithIsLast(nodes[..n], id);
    }
  }

  ghost predicate LastsDiffer(s: seq<Node>, t: seq<Node>, id: string)
  {
    exists j, k :: LastOf(s, j, id) && LastOf(t, k, id) && s[j].fingerprint != t[k].fingerprint
  }

  /** An id is changed exactly when the last nodes with it differ in fingerprint. */
  lemma ChangedMeans(previous: Snapshot, current: Snapshot, d: Diff, id: string)
    requires IsDiff(previous, current, d)
    ensures id in d.changed <==> LastsDiffer(previous.nodes, current.nodes, id)
  {
    var s, t := previous.nodes, current.nodes;
    if id in Ids(s) && id in Ids(t) {
      var j := LastWithIsLast(s, id);
      var k := LastWithIsLast(t, id);
      assert id in d.changed <==> s[j].fingerprint != t[k].fingerprint;
      OneLast(s, id, j);
      OneLast(t, id, k);
    }
    if LastsDiffer(s, t, id) {
      var j, k :| LastOf(s, j, id) && LastOf(t, k, id) && s[j].fingerprint != t[k].fingerprint;
      assert s[j] in s && t[k] in t;
    }
  }

  lemma OneLast(nodes: seq<Node>, id: string, k: int)
    requires LastOf(nodes, k, id)
    ensures forall j :: LastOf(nodes, j, id) ==> j == k
  {
  }
}
