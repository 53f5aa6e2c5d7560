/** Orders, sorting and bags: the vocabulary shared by the other modules.

    Go's sort.Slice is not stable and Python's sorted is; both are used here only through
    "an ordered permutation of the input", which is what SortBy promises. */
module Ordering {

  datatype Option<+T> = None | Some(value: T)

  // ---------- byte-wise string order ----------

  predicate StringLeq(a: string, b: string)
  {
    a == [] || (b != [] && (a[0] < b[0] || (a[0] == b[0] && StringLeq(a[1..], b[1..]))))
  }

  /** The strings agree up to a position where the first has the smaller byte. */
  predicate FirstSmaller(a: string, b: string, i: int)
  {
    0 <= i < |a| && i < |b| && a[..i] == b[..i] && a[i] < b[i]
  }

  lemma FirstSmallerShifts(a: string, b: string, i: int)
    requires a != [] && b != [] && a[0] == b[0] && i > 0
    ensures FirstSmaller(a, b, i) <==> FirstSmaller(a[1..], b[1..], i - 1)
  {
    if i < |a| && i < |b| {
      assert a[..i] == [a[0]] + a[1..][..i - 1] && b[..i] == [b[0]] + b[1..][..i - 1];
      assert a[1..][..i - 1] == a[..i][1..] && b[1..][..i - 1] == b[..i][1..];
    }
  }

  lemma BeginsTail(a: string, b: string)
    requires a != [] && b != [] && a[0] == b[0]
    ensures a <= b <==> a[1..] <= b[1..]
  {
    assert a == [a[0]] + a[1..] && b == [b[0]] + b[1..];
  }

  /** The order of bytes: a beginning comes first, and otherwise the first difference decides. */
  lemma {:induction false} StringLeqMeans(a: string, b: string)
    ensures StringLeq(a, b) <==> a <= b || exists i :: FirstSmaller(a, b, i)
  {
    if a != [] && b != [] {
      if a[0] == b[0] {
        hide FirstSmaller;
        StringLeqMeans(a[1..], b[1..]);
        BeginsTail(a, b);
        NotAtStart(a, b);
        if i :| FirstSmaller(a[1..], b[1..], i) {
          FirstSmallerInside(a[1..], b[1..], i);
          FirstSmallerShifts(a, b, i + 1);
        }
        if i :| FirstSmaller(a, b, i) {
          FirstSmallerInside(a, b, i);
          FirstSmallerShifts(a, b, i);
        }
      } else {
        DecidedAtOnce(a, b);
      }
    }
  }

  lemma FirstSmallerInside(a: string, b: string, i: int)
    requires FirstSmaller(a, b, i)
    ensures i >= 0
  {
  }

  lemma NotAtStart(a: string, b: string)
    requires a != [] && b != [] && a[0] == b[0]
    ensures !FirstSmaller(a, b, 0)
  {
  }

  lemma DecidedAtOnce(a: string, b: string)
    requires a != [] && b != [] && a[0] != b[0]
    ensures !(a <= b) && (a[0] < b[0] <==> exists i :: FirstSmaller(a, b, i))
  {
    forall i | 0 < i < |a| && i < |b| ensures a[..i] != b[..i] {
      assert a[..i][0] == a[0] && b[..i][0] == b[0];
    }
    if a[0] < b[0] { assert FirstSmaller(a, b, 0); }
  }

  lemma {:induction false} StringLeqTotal(a: string, b: string)
    ensures StringLeq(a, b) || StringLeq(b, a)
  {
    if a != [] && b != [] && a[0] == b[0] {
      StringLeqTotal(a[1..], b[1..]);
    }
  }

  lemma {:induction false} StringLeqAntisymmetric(a: string, b: string)
    requires StringLeq(a, b) && StringLeq(b, a)
    ensures a == b
  {
    if a != [] && b != [] {
      StringLeqAntisymmetric(a[1..], b[1..]);
      assert a == [a[0]] + a[1..] && b == [b[0]] + b[1..];
    }
  }

  lemma {:induction false} StringLeqTransitive(a: string, b: string, c: string)
    requires StringLeq(a, b) && StringLeq(b, c)
    ensures StringLeq(a, c)
  {
    if a != [] && a[0] == b[0] && b[0] == c[0] {
      StringLeqTransitive(a[1..], b[1..], c[1..]);
    }
  }

  // ---------- preorders and sorting ----------

  ghost predicate Total<T(!new)>(le: (T, T) -> bool)
  {
    forall x, y :: le(x, y) || le(y, x)
  }

  ghost predicate Transitive<T(!new)>(le: (T, T) -> bool)
  {
    forall x, y, z :: le(x, y) && le(y, z) ==> le(x, z)
  }

  ghost predicate Ordered<T>(le: (T, T) -> bool, s: seq<T>)
  {
    forall i, j :: 0 <= i < j < |s| ==> le(s[i], s[j])
  }

  lemma StringLeqIsTotalOrder()
    ensures Total(StringLeq) && Transitive(StringLeq)
  {
    forall a, b ensures StringLeq(a, b) || StringLeq(b, a) { StringLeqTotal(a, b); }
    forall a, b, c | StringLeq(a, b) && StringLeq(b, c) ensures StringLeq(a, c) {
      StringLeqTransitive(a, b, c);
    }
  }

  /** Insertion of one element into an ordered list, from the right. */
  method InsertOrdered<T(!new)>(s: seq<T>, x: T, le: (T, T) -> bool) returns (r: seq<T>)
    requires Total(le) && Transitive(le) && Ordered(le, s)
    ensures Ordered(le, r) && multiset(r) == multiset(s) + multiset{x}
  {
    var i := |s|;
    while i > 0 && !le(s[i - 1], x)
      invariant 0 <= i <= |s|
      invariant forall k :: i <= k < |s| ==> le(x, s[k])
    {
      i := i - 1;
    }
    r := s[..i] + [x] + s[i..];
    InsertedIsOrdered(s, x, le, i);
  }

  lemma InsertedIsOrdered<T(!new)>(s: seq<T>, x: T, le: (T, T) -> bool, i: nat)
    requires Transitive(le) && Ordered(le, s) && i <= |s|
    requires i > 0 ==> le(s[i - 1], x)
    requires forall k :: i <= k < |s| ==> le(x, s[k])
    ensures Ordered(le, s[..i] + [x] + s[i..])
    ensures multiset(s[..i] + [x] + s[i..]) == multiset(s) + multiset{x}
  {
    assert s == s[..i] + s[i..];
    var r := s[..i] + [x] + s[i..];
    forall a, b | 0 <= a < b < |r| ensures le(r[a], r[b]) {
      if b == i && a < i - 1 {
        assert le(s[a], s[i - 1]) && le(s[i - 1], x);
      }
    }
  }

  method SortBy<T(!new)>(s: seq<T>, le: (T, T) -> bool) returns (r: seq<T>)
    requires Total(le) && Transitive(le)
    ensures Ordered(le, r) && multiset(r) == multiset(s)
  {
    r := [];
    for i := 0 to |s|
      invariant Ordered(le, r) && multiset(r) == multiset(s[..i])
    {
      assert s[..i + 1] == s[..i] + [s[i]];
      r := InsertOrdered(r, s[i], le);
    }
    assert s[..|s|] == s;
  }

  /** The ordered arrangement of a bag is unique once ties are between equal elements. */
  lemma {:induction false} OrderedUnique<T(!new)>(le: (T, T) -> bool, s: seq<T>, t: seq<T>)
    requires Ordered(le, s) && Ordered(le, t) && multiset(s) == multiset(t)
    requires forall x, y :: x in s && y in s && le(x, y) && le(y, x) ==> x == y
    ensures s == t
  {
    SameLength(s, t);
    if s != [] {
      var n := |s| - 1;
      assert s[n] in multiset(t) && t[n] in multiset(s);
      assert s[n] == t[n] by {
        var i :| 0 <= i < |t| && t[i] == s[n];
        var j :| 0 <= j < |s| && s[j] == t[n];
        assert i == n || le(s[n], t[n]);
        assert j == n || le(t[n], s[n]);
      }
      BagWithout(s, n);
      BagWithout(t, n);
      assert s[..n] + s[n + 1..] == s[..n] && t[..n] + t[n + 1..] == t[..n];
      BagCancel(multiset(s[..n]), multiset(t[..n]), s[n]);
      OrderedUnique(le, s[..n], t[..n]);
      assert s == s[..n] + [s[n]] && t == t[..n] + [t[n]];
    }
  }

  function InsertBy<T>(le: (T, T) -> bool, s: seq<T>, x: T): (r: seq<T>)
    ensures multiset(r) == multiset(s) + multiset{x}
  {
    if s == [] then [x]
    else if le(s[|s| - 1], x) then s + [x]
    else
      var front, last := s[..|s| - 1], s[|s| - 1];
      assert s == front + [last];
      InsertBy(le, front, x) + [last]
  }

  /** The sorted arrangement of a list, as a function of it. */
  function SortedBy<T>(le: (T, T) -> bool, s: seq<T>): (r: seq<T>)
    ensures multiset(r) == multiset(s)
  {
    if s == [] then []
    else
      assert s == s[..|s| - 1] + [s[|s| - 1]];
      InsertBy(le, SortedBy(le, s[..|s| - 1]), s[|s| - 1])
  }

  lemma {:induction false} InsertByOrdered<T(!new)>(le: (T, T) -> bool, s: seq<T>, x: T)
    requires Total(le) && Transitive(le) && Ordered(le, s)
    ensures Ordered(le, InsertBy(le, s, x))
  {
    if s != [] && !le(s[|s| - 1], x) {
      var front, last := s[..|s| - 1], s[|s| - 1];
      InsertByOrdered(le, front, x);
      var r := InsertBy(le, front, x);
      forall i | 0 <= i < |r| ensures le(r[i], last) {
        assert r[i] in multiset(front) + multiset{x};
        if r[i] in multiset(front) {
          var k :| 0 <= k < |front| && front[k] == r[i];
          assert le(s[k], s[|s| - 1]);
        }
      }
    } else if s != [] {
      forall i | 0 <= i < |s| ensures le(s[i], x) {
        assert i < |s| - 1 ==> le(s[i], s[|s| - 1]);
      }
    }
  }

  lemma {:induction false} SortedByOrdered<T(!new)>(le: (T, T) -> bool, s: seq<T>)
    requires Total(le) && Transitive(le)
    ensures Ordered(le, SortedBy(le, s))
  {
    if s != [] {
      SortedByOrdered(le, s[..|s| - 1]);
      InsertByOrdered(le, SortedBy(le, s[..|s| - 1]), s[|s| - 1]);
    }
  }

  /** Sorting has one possible result once ties are between equal elements. */
  lemma SortedByUnique<T(!new)>(le: (T, T) -> bool, s: seq<T>, r: seq<T>)
    requires Total(le) && Transitive(le) && Ordered(le, r) && multiset(r) == multiset(s)
    requires forall x, y :: x in s && y in s && le(x, y) && le(y, x) ==> x == y
    ensures r == SortedBy(le, s)
  {
    SortedByOrdered(le, s);
    SameMembers(r, s);
    OrderedUnique(le, r, SortedBy(le, s));
  }

  /** Taking one position out of a list takes one copy of its element out of the bag. */
  lemma BagWithout<T>(s: seq<T>, i: nat)
    requires i < |s|
    ensures multiset(s) == multiset(s[..i] + s[i + 1..]) + multiset{s[i]}
  {
    var front, back := s[..i], s[i + 1..];
    assert s == (front + [s[i]]) + back;
    assert multiset((front + [s[i]]) + back) == multiset(front + [s[i]]) + multiset(back);
  }

  lemma BagCancel<T>(a: multiset<T>, b: multiset<T>, x: T)
    requires a + multiset{x} == b + multiset{x}
    ensures a == b
  {
    assert a == (a + multiset{x}) - multiset{x};
    assert b == (b + multiset{x}) - multiset{x};
  }

  /** Removes a copy of one's last element from another arrangement of the same bag. */
  lemma Elsewhere<T>(s: seq<T>, t: seq<T>) returns (i: nat)
    requires s != [] && multiset(s) == multiset(t)
    ensures i < |t| && t[i] == s[|s| - 1]
    ensures multiset(s[..|s| - 1]) == multiset(t[..i] + t[i + 1..])
  {
    var n := |s| - 1;
    assert s[n] in multiset(t);
    i :| 0 <= i < |t| && t[i] == s[n];
    BagWithout(s, n);
    BagWithout(t, i);
    assert s[..n] + s[n + 1..] == s[..n];
    BagCancel(multiset(s[..n]), multiset(t[..i] + t[i + 1..]), s[n]);
  }

  lemma SameMembers<T>(s: seq<T>, t: seq<T>)
    requires multiset(s) == multiset(t)
    ensures forall x :: x in s <==> x in t
  {
    forall x ensures x in s <==> x in t {
      assert x in s <==> x in multiset(s);
      assert x in t <==> x in multiset(t);
    }
  }

  lemma SameLength<T>(s: seq<T>, t: seq<T>)
    requires multiset(s) == multiset(t)
    ensures |s| == |t|
  {
    assert |multiset(s)| == |s| && |multiset(t)| == |t|;
  }

  function Members(names: seq<string>): set<string>
  {
    set name | name in names
  }

  ghost predicate NoDuplicates<T>(s: seq<T>)
  {
    forall i, j :: 0 <= i < j < |s| ==> s[i] != s[j]
  }

  lemma NoDuplicatesSnoc<T>(s: seq<T>, x: T)
    requires NoDuplicates(s) && x !in s
    ensures NoDuplicates(s + [x])
  {
  }

  lemma {:induction false} NoDuplicatesMultiplicity<T>(s: seq<T>, x: T)
    requires NoDuplicates(s)
    ensures multiset(s)[x] == if x in s then 1 else 0
  {
    if s != [] {
      var n := |s| - 1;
      assert s == s[..n] + [s[n]];
      NoDuplicatesMultiplicity(s[..n], x);
    }
  }

  /** Duplicate-free lists over the same elements are permutations of each other. */
  lemma NoDuplicatesSameBag<T>(s: seq<T>, t: seq<T>)
    requires NoDuplicates(s) && NoDuplicates(t)
    requires forall x :: x in s <==> x in t
    ensures multiset(s) == multiset(t)
  {
    forall x ensures multiset(s)[x] == multiset(t)[x] {
      NoDuplicatesMultiplicity(s, x);
      NoDuplicatesMultiplicity(t, x);
    }
  }

  /** A finite set as a list, each element once. */
  method ListSet<T(==)>(s: set<T>) returns (r: seq<T>)
    ensures NoDuplicates(r) && (forall x :: x in r <==> x in s) && |r| == |s|
  {
    r := [];
    var rest := s;
    while rest != {}
      invariant rest <= s && NoDuplicates(r) && |r| + |rest| == |s|
      invariant forall x :: x in r <==> x in s && x !in rest
      decreases rest
    {
      var x :| x in rest;
      r := r + [x];
      rest := rest - {x};
    }
  }

  /** The keys of a map in byte order, each once (sort.Strings over a key slice). */
  method SortedKeys(s: set<string>) returns (r: seq<string>)
    ensures NoDuplicates(r) && (forall x :: x in r <==> x in s) && Ordered(StringLeq, r)
    ensures |r| == |s|
  {
    StringLeqIsTotalOrder();
    var listed := ListSet(s);
    r := SortBy(listed, StringLeq);
    SameLength(r, listed);
    forall x ensures x in r <==> x in s {
      assert x in r <==> x in multiset(r);
      assert x in listed <==> x in multiset(listed);
    }
    BagDecidesDuplicates(listed, r);
  }

  /** The elements of a set in byte order, as a function of the set. */
  ghost function KeyList(s: set<string>): seq<string>
  {
    if s == {} then []
    else
      var x :| x in s;
      InsertBy(StringLeq, KeyList(s - {x}), x)
  }

  lemma {:induction false} KeyListIs(s: set<string>)
    ensures Ordered(StringLeq, KeyList(s)) && NoDuplicates(KeyList(s))
    ensures forall x :: x in KeyList(s) <==> x in s
    decreases s
  {
    if s != {} {
      var x :| x in s && KeyList(s) == InsertBy(StringLeq, KeyList(s - {x}), x);
      var rest := KeyList(s - {x});
      KeyListIs(s - {x});
      StringLeqIsTotalOrder();
      InsertByOrdered(StringLeq, rest, x);
      NoDuplicatesSnoc(rest, x);
      assert multiset(KeyList(s)) == multiset(rest + [x]);
      BagDecidesDuplicates(rest + [x], KeyList(s));
      SameMembers(KeyList(s), rest + [x]);
    }
  }

  /** There is one ordered list of a set without duplicates. */
  lemma KeyListUnique(s: set<string>, r: seq<string>)
    requires Ordered(StringLeq, r) && NoDuplicates(r) && forall x :: x in r <==> x in s
    ensures r == KeyList(s)
  {
    hide KeyList;
    KeyListIs(s);
    NoDuplicatesSameBag(r, KeyList(s));
    forall x, y | x in r && y in r && StringLeq(x, y) && StringLeq(y, x) ensures x == y {
      StringLeqAntisymmetric(x, y);
    }
    OrderedUnique(StringLeq, r, KeyList(s));
  }

  lemma BagDecidesDuplicates<T>(s: seq<T>, t: seq<T>)
    requires NoDuplicates(s) && multiset(s) == multiset(t)
    ensures NoDuplicates(t)
  {
    forall i, j | 0 <= i < j < |t| ensures t[i] != t[j] {
      NoDuplicatesMultiplicity(s, t[i]);
      BagWithout(t, i);
      assert (t[..i] + t[i + 1..])[j - 1] == t[j];
      assert t[j] in multiset(t[..i] + t[i + 1..]);
    }
  }

  /** Some list of the elements of a bag. */
  ghost function BagList<T(!new)>(b: multiset<T>): (s: seq<T>)
    ensures multiset(s) == b
    decreases |b|
  {
    if b == multiset{} then []
    else
      var x :| x in b;
      BagList(b - multiset{x}) + [x]
  }

  // ---------- mapping and summing over lists ----------

  function Map<A, B>(f: A -> B, s: seq<A>): (r: seq<B>)
    ensures |r| == |s|
    ensures forall i :: 0 <= i < |s| ==> r[i] == f(s[i])
  {
    seq(|s|, i requires 0 <= i < |s| => f(s[i]))
  }

  lemma NoDuplicatesFromKeys<A, K>(key: A -> K, s: seq<A>)
    requires NoDuplicates(Map(key, s))
    ensures NoDuplicates(s)
  {
    forall i, j | 0 <= i < j < |s| ensures s[i] != s[j] {
      assert Map(key, s)[i] != Map(key, s)[j];
    }
  }

  lemma NoDuplicatesConcat<A>(s: seq<A>, t: seq<A>)
    requires NoDuplicates(s) && NoDuplicates(t) && forall x :: x in s ==> x !in t
    ensures NoDuplicates(s + t)
  {
    forall i, j | 0 <= i < j < |s + t| ensures (s + t)[i] != (s + t)[j] {
      if i < |s| <= j { assert s[i] in s && t[j - |s|] in t; }
    }
  }

  /** The first n elements, or all of them. */
  function First<A>(n: nat, s: seq<A>): (r: seq<A>)
    ensures |r| == if |s| < n then |s| else n
    ensures r <= s
  {
    if |s| <= n then s else s[..n]
  }

  /** The bag union of f over a list. */
  ghost function BagSum<A, B(!new)>(f: A -> multiset<B>, s: seq<A>): multiset<B>
  {
    if s == [] then multiset{} else BagSum(f, s[..|s| - 1]) + f(s[|s| - 1])
  }

  lemma {:induction false} BagSumConcat<A, B(!new)>(f: A -> multiset<B>, s: seq<A>, t: seq<A>)
    ensures BagSum(f, s + t) == BagSum(f, s) + BagSum(f, t)
  {
    if t == [] {
      assert s + t == s;
    } else {
      var n := |t| - 1;
      assert (s + t)[..|s + t| - 1] == s + t[..n];
      BagSumConcat(f, s, t[..n]);
    }
  }

  lemma {:induction false} BagSumMember<A, B(!new)>(f: A -> multiset<B>, s: seq<A>, b: B)
    ensures b in BagSum(f, s) <==> exists i :: 0 <= i < |s| && b in f(s[i])
  {
    if s != [] {
      var n := |s| - 1;
      BagSumMember(f, s[..n], b);
      if b in BagSum(f, s[..n]) {
        var i :| 0 <= i < |s[..n]| && b in f(s[..n][i]);
        assert s[i] == s[..n][i];
      }
      if exists i :: 0 <= i < |s| && b in f(s[i]) {
        var i :| 0 <= i < |s| && b in f(s[i]);
        if i < n { assert s[..n][i] == s[i]; }
      }
    }
  }

  /** f on s and g on t agree wherever the shape function cannot tell two elements apart. */
  ghost predicate AgreeByShape<A, B(!new), K>(
      f: A -> multiset<B>, g: A -> multiset<B>, shape: A -> K, s: seq<A>, t: seq<A>)
  {
    forall x, y :: x in s && y in t && shape(x) == shape(y) ==> f(x) == g(y)
  }

  /** Bag unions do not see the order of the list, nor any part of an element that the
      shape function forgets and f does not use. */
  lemma {:induction false} BagSumPermuted<A, B(!new), K>(
      f: A -> multiset<B>, g: A -> multiset<B>, shape: A -> K, s: seq<A>, t: seq<A>)
    requires multiset(Map(shape, s)) == multiset(Map(shape, t))
    requires AgreeByShape(f, g, shape, s, t)
    ensures BagSum(f, s) == BagSum(g, t)
  {
    SameLength(Map(shape, s), Map(shape, t));
    if s != [] {
      var n := |s| - 1;
      var i := Partner(shape, s, t);
      var t' := t[..i] + t[i + 1..];
      assert AgreeByShape(f, g, shape, s[..n], t') by {
        assert forall x :: x in s[..n] ==> x in s;
        assert forall y :: y in t' ==> y in t;
      }
      BagSumPermuted(f, g, shape, s[..n], t');
      BagSumWithout(g, t, i);
      assert f(s[n]) == g(t[i]) by { assert s[n] in s && t[i] in t; }
    }
  }

  /** The element of t that carries the shape of the last element of s. */
  lemma Partner<A, K>(shape: A -> K, s: seq<A>, t: seq<A>) returns (i: nat)
    requires s != [] && multiset(Map(shape, s)) == multiset(Map(shape, t))
    ensures i < |t| && shape(t[i]) == shape(s[|s| - 1])
    ensures multiset(Map(shape, s[..|s| - 1])) == multiset(Map(shape, t[..i] + t[i + 1..]))
  {
    var n := |s| - 1;
    var k := shape(s[n]);
    assert Map(shape, s)[n] == k;
    assert k in multiset(Map(shape, t));
    i :| 0 <= i < |t| && Map(shape, t)[i] == k;
    MapWithout(shape, t, i);
    MapWithout(shape, s, n);
    assert s[..n] + s[n + 1..] == s[..n];
    BagCancel(multiset(Map(shape, s[..n])), multiset(Map(shape, t[..i] + t[i + 1..])), k);
  }

  lemma MapWithout<A, B>(f: A -> B, t: seq<A>, i: nat)
    requires i < |t|
    ensures multiset(Map(f, t)) == multiset(Map(f, t[..i] + t[i + 1..])) + multiset{f(t[i])}
  {
    BagWithout(Map(f, t), i);
    assert Map(f, t[..i] + t[i + 1..]) == Map(f, t)[..i] + Map(f, t)[i + 1..];
  }

  lemma BagSumWithout<A, B(!new)>(f: A -> multiset<B>, t: seq<A>, i: nat)
    requires i < |t|
    ensures BagSum(f, t) == BagSum(f, t[..i] + t[i + 1..]) + f(t[i])
  {
    var front, back := t[..i], t[i + 1..];
    assert t == (front + [t[i]]) + back;
    BagSumConcat(f, front + [t[i]], back);
    BagSumConcat(f, front, back);
    assert (front + [t[i]])[..i] == front;
  }

  lemma MapConcat<A, B>(f: A -> B, s: seq<A>, t: seq<A>)
    ensures Map(f, s + t) == Map(f, s) + Map(f, t)
  {
  }

  /** Mapping sends equal bags to equal bags. */
  lemma MapBag<A, B(!new)>(f: A -> B, s: seq<A>, t: seq<A>)
    requires multiset(s) == multiset(t)
    ensures multiset(Map(f, s)) == multiset(Map(f, t))
  {
    BagSumSameBag(Single(f), s, t);
    BagSumOfMap(f, s);
    BagSumOfMap(f, t);
  }

  function Identity<A>(): A -> A
  {
    x => x
  }

  lemma BagSumSameBag<A, B(!new)>(f: A -> multiset<B>, s: seq<A>, t: seq<A>)
    requires multiset(s) == multiset(t)
    ensures BagSum(f, s) == BagSum(f, t)
  {
    MapIdentity(s);
    MapIdentity(t);
    BagSumPermuted(f, f, Identity<A>(), s, t);
  }

  lemma BagSumSnoc<A, B(!new)>(f: A -> multiset<B>, front: seq<A>, last: A)
    ensures BagSum(f, front + [last]) == BagSum(f, front) + f(last)
  {
    assert (front + [last])[..|front|] == front;
  }

  function Single<A, B>(f: A -> B): A -> multiset<B>
  {
    x => multiset{f(x)}
  }

  lemma MapIdentity<A>(s: seq<A>)
    ensures Map(Identity<A>(), s) == s
  {
  }

  lemma {:induction false} BagSumOfMap<A, B(!new)>(f: A -> B, s: seq<A>)
    ensures BagSum(Single(f), s) == multiset(Map(f, s))
  {
    if s != [] {
      var n := |s| - 1;
      BagSumOfMap(f, s[..n]);
      assert Map(f, s) == Map(f, s[..n]) + [f(s[n])];
    }
  }
}
