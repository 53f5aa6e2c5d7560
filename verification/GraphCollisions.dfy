/** collisionEdges (internal/claudeadapter/inventory.go): grouping by name, sorting each group
    and pairing inside it produces exactly one edge per same-named pair. The edge made from
    two ids is a parameter; the buckets of the graph differ in nothing else. */
module GraphCollisions {
  import opened Ordering
  import opened InventoryTypes

  /** The edge from one id to another. */
  type Maker = (string, string) -> Edge

  predicate NodeLeq(x: Node, y: Node) { StringLeq(x.id, y.id) }

  /** The edge between two nodes, from the smaller id to the larger. */
  function Joint(d: Maker, x: Node, y: Node): Edge
  {
    if NodeLeq(x, y) then d(x.id, y.id) else d(y.id, x.id)
  }

  /** The edges between one node and the others that carry its name. */
  ghost function CollisionsWith(d: Maker, x: Node): Node -> multiset<Edge>
  {
    (y: Node) => if y.name == x.name then multiset{Joint(d, x, y)} else multiset{}
  }

  /** One edge for each pair of positions that carry the same name. */
  ghost function Collisions(d: Maker, nodes: seq<Node>): multiset<Edge>
  {
    if nodes == [] then multiset{}
    else Collisions(d, nodes[..|nodes| - 1]) + BagSum(CollisionsWith(d, nodes[|nodes| - 1]), nodes[..|nodes| - 1])
  }

  lemma CollisionSymmetric(d: Maker, x: Node, y: Node)
    ensures CollisionsWith(d, x)(y) == CollisionsWith(d, y)(x)
  {
    StringLeqTotal(x.id, y.id);
    if StringLeq(x.id, y.id) && StringLeq(y.id, x.id) { StringLeqAntisymmetric(x.id, y.id); }
  }

  function Without<T>(s: seq<T>, i: nat): seq<T>
    requires i < |s|
  {
    s[..i] + s[i + 1..]
  }

  lemma CollisionsSnoc(d: Maker, front: seq<Node>, last: Node)
    ensures Collisions(d, front + [last]) == Collisions(d, front) + BagSum(CollisionsWith(d, last), front)
  {
    assert (front + [last])[..|front|] == front;
  }

  /** Any node can be taken out together with the edges between it and the rest. */
  lemma {:induction false} CollisionsWithout(d: Maker, nodes: seq<Node>, i: nat)
    requires i < |nodes|
    ensures Collisions(d, nodes) ==
      Collisions(d, Without(nodes, i)) + BagSum(CollisionsWith(d, nodes[i]), Without(nodes, i))
    decreases |nodes|
  {
    var n := |nodes| - 1;
    var front, last := nodes[..n], nodes[n];
    assert nodes == front + [last];
    if i == n {
      assert Without(nodes, i) == front;
      CollisionsSnoc(d, front, last);
    } else {
      var rest := Without(front, i);
      assert Without(nodes, i) == rest + [last];
      CollisionsWithout(d, front, i);
      BagSumWithout(CollisionsWith(d, last), front, i);
      TakenOutStep(d, front, rest, nodes[i], last);
    }
  }

  lemma TakenOutStep(d: Maker, front: seq<Node>, rest: seq<Node>, x: Node, last: Node)
    requires Collisions(d, front) == Collisions(d, rest) + BagSum(CollisionsWith(d, x), rest)
    requires BagSum(CollisionsWith(d, last), front) ==
      BagSum(CollisionsWith(d, last), rest) + CollisionsWith(d, last)(x)
    ensures Collisions(d, front + [last]) == Collisions(d, rest + [last]) + BagSum(CollisionsWith(d, x), rest + [last])
  {
    var cx, cl := CollisionsWith(d, x), CollisionsWith(d, last);
    CollisionSymmetric(d, x, last);
    CollisionsSnoc(d, front, last);
    CollisionsSnoc(d, rest, last);
    BagSumSnoc(cx, rest, last);
    Rearrange(Collisions(d, rest), BagSum(cx, rest), BagSum(cl, rest), cl(x));
  }

  lemma Rearrange<T>(a: multiset<T>, p: multiset<T>, q: multiset<T>, r: multiset<T>)
    ensures (a + p) + (q + r) == (a + q) + (p + r)
  {
  }

  /** The order nodes are recorded in does not matter. */
  lemma {:induction false} CollisionsPermuted(d: Maker, s: seq<Node>, t: seq<Node>)
    requires multiset(s) == multiset(t)
    ensures Collisions(d, s) == Collisions(d, t)
    decreases |s|
  {
    SameLength(s, t);
    if s != [] {
      var n := |s| - 1;
      var i := Elsewhere(s, t);
      var rest := Without(t, i);
      CollisionsPermuted(d, s[..n], rest);
      CollisionsWithout(d, t, i);
      BagSumSameBag(CollisionsWith(d, s[n]), s[..n], rest);
    }
  }

  // ---------- groups by name ----------

  function OfNames(nodes: seq<Node>, names: set<string>): (r: seq<Node>)
    ensures forall n :: n in r ==> n in nodes && n.name in names
  {
    if nodes == [] then []
    else
      var before, last := OfNames(nodes[..|nodes| - 1], names), nodes[|nodes| - 1];
      if last.name in names then before + [last] else before
  }

  lemma OfNamesSnoc(front: seq<Node>, last: Node, names: set<string>)
    ensures OfNames(front + [last], names) == OfNames(front, names) + if last.name in names then [last] else []
  {
    assert (front + [last])[..|front|] == front;
  }

  lemma {:induction false} OfAllNames(nodes: seq<Node>, names: set<string>)
    requires forall n :: n in nodes ==> n.name in names
    ensures OfNames(nodes, names) == nodes
  {
    if nodes != [] {
      OfAllNames(nodes[..|nodes| - 1], names);
      assert nodes == nodes[..|nodes| - 1] + [nodes[|nodes| - 1]];
    }
  }

  /** Only nodes of the same name meet a node. */
  lemma {:induction false} OnlySameName(d: Maker, x: Node, nodes: seq<Node>, names: set<string>)
    ensures BagSum(CollisionsWith(d, x), OfNames(nodes, names)) ==
      if x.name in names then BagSum(CollisionsWith(d, x), OfNames(nodes, {x.name})) else multiset{}
  {
    if nodes != [] {
      var front, last := nodes[..|nodes| - 1], nodes[|nodes| - 1];
      OnlySameName(d, x, front, names);
      BagSumSnoc(CollisionsWith(d, x), OfNames(front, names), last);
      BagSumSnoc(CollisionsWith(d, x), OfNames(front, {x.name}), last);
    }
  }

  /** A new name brings the collisions inside its own group and no others. */
  lemma {:induction false} OneMoreName(d: Maker, nodes: seq<Node>, names: set<string>, name: string)
    requires name !in names
    ensures Collisions(d, OfNames(nodes, names + {name})) ==
      Collisions(d, OfNames(nodes, names)) + Collisions(d, OfNames(nodes, {name}))
  {
    if nodes != [] {
      var front, last := nodes[..|nodes| - 1], nodes[|nodes| - 1];
      assert nodes == front + [last];
      OneMoreName(d, front, names, name);
      OfNamesSnoc(front, last, names + {name});
      OfNamesSnoc(front, last, names);
      OfNamesSnoc(front, last, {name});
      OnlySameName(d, last, front, names + {name});
      OnlySameName(d, last, front, names);
      CollisionsSnoc(d, OfNames(front, names + {name}), last);
      CollisionsSnoc(d, OfNames(front, names), last);
      CollisionsSnoc(d, OfNames(front, {name}), last);
      AddedOnOneSide(Collisions(d, OfNames(front, names)), Collisions(d, OfNames(front, {name})),
                     BagSum(CollisionsWith(d, last), OfNames(front, {last.name})));
    }
  }

  lemma AddedOnOneSide<T>(a: multiset<T>, b: multiset<T>, c: multiset<T>)
    ensures (a + b) + c == a + (b + c) == (a + c) + b
  {
  }

  // ---------- the source's loops ----------

  lemma CollisionsHead(d: Maker, nodes: seq<Node>, i: nat)
    requires i < |nodes|
    ensures Collisions(d, nodes[i..]) ==
      Collisions(d, nodes[i + 1..]) + BagSum(CollisionsWith(d, nodes[i]), nodes[i + 1..])
  {
    assert Without(nodes[i..], 0) == nodes[i + 1..];
    CollisionsWithout(d, nodes[i..], 0);
  }

  lemma NodeLeqIsOrder()
    ensures Total(NodeLeq) && Transitive(NodeLeq)
  {
    forall x, y ensures NodeLeq(x, y) || NodeLeq(y, x) { StringLeqTotal(x.id, y.id); }
    forall x, y, z | NodeLeq(x, y) && NodeLeq(y, z) ensures NodeLeq(x, z) { StringLeqTransitive(x.id, y.id, z.id); }
  }

  /** One node against the ones after it in its sorted group. */
  method PairWithLater(d: Maker, x: Node, later: seq<Node>) returns (edges: seq<Edge>)
    requires forall y :: y in later ==> NodeLeq(x, y) && y.name == x.name
    ensures multiset(edges) == BagSum(CollisionsWith(d, x), later)
  {
    edges := [];
    for j := 0 to |later|
      invariant multiset(edges) == BagSum(CollisionsWith(d, x), later[..j])
    {
      assert later[..j + 1] == later[..j] + [later[j]];
      assert later[j] in later;
      BagSumSnoc(CollisionsWith(d, x), later[..j], later[j]);
      edges := edges + [d(x.id, later[j].id)];
    }
    assert later[..|later|] == later;
  }

  /** The nested loops over one group. */
  method GroupEdges(d: Maker, group: seq<Node>) returns (edges: seq<Edge>)
    requires forall m, n :: m in group && n in group ==> m.name == n.name
    ensures multiset(edges) == Collisions(d, group)
  {
    edges := [];
    if |group| < 2 {
      assert |group| == 1 ==> group[..0] == [];
      return;
    }
    NodeLeqIsOrder();
    var sorted := SortBy(group, NodeLeq);
    CollisionsPermuted(d, sorted, group);
    SameMembers(sorted, group);
    assert sorted[0..] == sorted;
    for i := 0 to |sorted|
      invariant multiset(edges) + Collisions(d, sorted[i..]) == Collisions(d, sorted)
    {
      assert forall y :: y in sorted[i + 1..] ==> NodeLeq(sorted[i], y) && y in sorted;
      assert sorted[i] in sorted;
      var pairs := PairWithLater(d, sorted[i], sorted[i + 1..]);
      CollisionsHead(d, sorted, i);
      edges := edges + pairs;
    }
    assert sorted[|sorted|..] == [];
  }

  /** The names of a bucket with their groups, as the source's by-name map holds them. */
  ghost predicate Groups(nodes: seq<Node>, byName: map<string, seq<Node>>)
  {
    && (forall name :: name in byName ==> byName[name] == OfNames(nodes, {name}))
    && (forall n :: n in nodes ==> n.name in byName)
  }

  method CollisionEdges(d: Maker, byName: map<string, seq<Node>>, ghost nodes: seq<Node>) returns (edges: seq<Edge>)
    requires Groups(nodes, byName)
    ensures multiset(edges) == Collisions(d, nodes)
  {
    var names := SortedKeys(byName.Keys);
    edges := [];
    ghost var done: set<string> := {};
    OfNoNames(nodes);
    for k := 0 to |names|
      invariant done == Members(names[..k])
      invariant multiset(edges) == Collisions(d, OfNames(nodes, done))
    {
      MembersSnoc(names, k);
      var pairs := NameEdges(d, names[k], byName[names[k]], nodes, done);
      edges := edges + pairs;
      done := done + {names[k]};
    }
    assert names[..|names|] == names;
    OfAllNames(nodes, done);
  }

  /** The edges one name adds. */
  method NameEdges(d: Maker, name: string, group: seq<Node>, ghost nodes: seq<Node>, ghost done: set<string>)
      returns (edges: seq<Edge>)
    requires name !in done && group == OfNames(nodes, {name})
    ensures Collisions(d, OfNames(nodes, done + {name})) == Collisions(d, OfNames(nodes, done)) + multiset(edges)
  {
    edges := GroupEdges(d, group);
    OneMoreName(d, nodes, done, name);
  }

  lemma MembersSnoc(names: seq<string>, k: nat)
    requires k < |names| && NoDuplicates(names)
    ensures Members(names[..k + 1]) == Members(names[..k]) + {names[k]}
    ensures names[k] !in Members(names[..k]) && names[k] in names
  {
    assert names[..k + 1] == names[..k] + [names[k]];
  }

  lemma {:induction false} OfNoNames(nodes: seq<Node>)
    ensures OfNames(nodes, {}) == []
  {
    if nodes != [] { OfNoNames(nodes[..|nodes| - 1]); }
  }

  // ---------- exactness ----------

  /** n same-named nodes make n(n-1)/2 edges, the count each name adds to its bucket. */
  lemma {:induction false} GroupCount(d: Maker, group: seq<Node>)
    requires forall m, n :: m in group && n in group ==> m.name == n.name
    ensures 2 * |Collisions(d, group)| == |group| * (|group| - 1)
  {
    if group != [] {
      var n := |group| - 1;
      var front, last := group[..n], group[n];
      assert forall m :: m in front ==> m in group;
      GroupCount(d, front);
      MeetsAll(d, last, front);
      PairsGrow(n);
    }
  }

  /** Twice the number of pairs, name by name. */
  function PairsByName(nodes: seq<Node>, names: seq<string>): int
  {
    if names == [] then 0
    else
      var n := |OfNames(nodes, {names[|names| - 1]})|;
      PairsByName(nodes, names[..|names| - 1]) + n * (n - 1)
  }

  /** A bucket contributes, for each of its names, n(n-1)/2 edges. */
  lemma {:induction false} BucketCount(d: Maker, nodes: seq<Node>, names: seq<string>)
    requires NoDuplicates(names)
    ensures 2 * |Collisions(d, OfNames(nodes, Members(names)))| == PairsByName(nodes, names)
  {
    if names == [] {
      OfNoNames(nodes);
      assert Members(names) == {};
    } else {
      var k := |names| - 1;
      BucketCount(d, nodes, names[..k]);
      MembersSnoc(names, k);
      assert names[..k + 1] == names;
      OneMoreName(d, nodes, Members(names[..k]), names[k]);
      GroupCount(d, OfNames(nodes, {names[k]}));
    }
  }

  function NamesIn(nodes: seq<Node>): set<string>
  {
    set n | n in nodes :: n.name
  }

  /** Twice the edges of a list of nodes: n(n-1) for each name that n of them carry. */
  lemma PairCount(d: Maker, nodes: seq<Node>)
    ensures 2 * |Collisions(d, nodes)| == PairsByName(nodes, KeyList(NamesIn(nodes)))
  {
    hide KeyList, Collisions, PairsByName;
    var names := KeyList(NamesIn(nodes));
    KeyListIs(NamesIn(nodes));
    BucketCount(d, nodes, names);
    assert Members(names) == NamesIn(nodes);
    OfAllNames(nodes, NamesIn(nodes));
  }

  lemma PairsGrow(n: int)
    ensures (n + 1) * n == n * (n - 1) + 2 * n
  {
  }

  lemma {:induction false} MeetsAll(d: Maker, x: Node, nodes: seq<Node>)
    requires forall n :: n in nodes ==> n.name == x.name
    ensures |BagSum(CollisionsWith(d, x), nodes)| == |nodes|
  {
    if nodes != [] {
      var n := |nodes| - 1;
      assert nodes[n] in nodes && forall m :: m in nodes[..n] ==> m in nodes;
      MeetsAll(d, x, nodes[..n]);
    }
  }

  /** No two positions share an id. */
  ghost predicate DistinctIds(nodes: seq<Node>)
  {
    forall i, j :: 0 <= i < j < |nodes| ==> nodes[i].id != nodes[j].id
  }

  ghost predicate Collide(nodes: seq<Node>, from: string, to: string)
  {
    exists x, y :: x in nodes && y in nodes && x.id == from && y.id == to && x.name == y.name
  }

  /** The multiplicity of the edge between two ids. */
  ghost function Joined(edges: multiset<Edge>, d: Maker, from: string, to: string): nat
  {
    edges[d(from, to)]
  }

  ghost predicate InjectiveMaker(d: Maker)
  {
    forall from, to, from', to' {:trigger d(from, to), d(from', to')} ::
      d(from, to) == d(from', to') ==> from == from' && to == to'
  }

  /** x and y are the two ends, in some order. */
  predicate Ends(x: Node, y: Node, from: string, to: string)
  {
    (from == x.id && to == y.id) || (from == y.id && to == x.id)
  }

  lemma JoinedPair(d: Maker, x: Node, y: Node, from: string, to: string)
    requires InjectiveMaker(d) && x.id != y.id
    ensures CollisionsWith(d, x)(y)[d(from, to)] ==
      if y.name == x.name && from != to && StringLeq(from, to) && Ends(x, y, from, to) then 1 else 0
  {
    StringLeqTotal(x.id, y.id);
    if StringLeq(x.id, y.id) && StringLeq(y.id, x.id) { StringLeqAntisymmetric(x.id, y.id); }
  }

  lemma {:induction false} JoinedWith(d: Maker, x: Node, nodes: seq<Node>, from: string, to: string)
    requires InjectiveMaker(d) && DistinctIds(nodes + [x])
    ensures Joined(BagSum(CollisionsWith(d, x), nodes), d, from, to) ==
      if from != to && StringLeq(from, to) && (exists y :: y in nodes && y.name == x.name && Ends(x, y, from, to))
      then 1 else 0
  {
    if nodes != [] {
      var n := |nodes| - 1;
      var front, y := nodes[..n], nodes[n];
      assert nodes == front + [y];
      DistinctFront(front, y, x);
      JoinedWith(d, x, front, from, to);
      JoinedPair(d, x, y, from, to);
      BagSumSnoc(CollisionsWith(d, x), front, y);
    }
  }

  lemma DistinctFront(front: seq<Node>, y: Node, x: Node)
    requires DistinctIds(front + [y] + [x])
    ensures DistinctIds(front + [x]) && y.id != x.id
    ensures forall z :: z in front ==> z.id != y.id
  {
    var all := front + [y] + [x];
    assert all[|front|] == y && all[|front| + 1] == x;
    forall i, j | 0 <= i < j < |front + [x]| ensures (front + [x])[i].id != (front + [x])[j].id {
      assert all[i] == (front + [x])[i];
      assert all[if j < |front| then j else j + 1] == (front + [x])[j];
    }
    forall z | z in front ensures z.id != y.id {
      var i :| 0 <= i < |front| && front[i] == z;
      assert all[i] == z;
    }
  }

  /** Under distinct ids, two different nodes are joined exactly when they share a name, and
      then exactly once and in one direction; no node is joined to itself. */
  lemma {:induction false} CollisionsAreExact(d: Maker, nodes: seq<Node>, from: string, to: string)
    requires InjectiveMaker(d) && DistinctIds(nodes)
    ensures Joined(Collisions(d, nodes), d, from, to) ==
      if from != to && StringLeq(from, to) && Collide(nodes, from, to) then 1 else 0
  {
    if nodes != [] {
      var n := |nodes| - 1;
      var front, x := nodes[..n], nodes[n];
      assert nodes == front + [x];
      CollisionsAreExact(d, front, from, to);
      JoinedWith(d, x, front, from, to);
      CollisionsSnoc(d, front, x);
      if from != to { CollideSnoc(front, x, from, to); }
    }
  }

  lemma CollideSnoc(front: seq<Node>, x: Node, from: string, to: string)
    requires DistinctIds(front + [x]) && from != to
    ensures Collide(front + [x], from, to) <==>
      Collide(front, from, to) || exists y :: y in front && y.name == x.name && Ends(x, y, from, to)
    ensures !(Collide(front, from, to) && exists y :: y in front && y.name == x.name && Ends(x, y, from, to))
  {
    var all := front + [x];
    forall z | z in front ensures z.id != x.id {
      var i :| 0 <= i < |front| && front[i] == z;
      assert all[i] == z && all[|front|] == x;
    }
  }
}
