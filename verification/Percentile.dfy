/** percentile_cont (scripts/validate_contracts.py) in exact real arithmetic. */
module Percentile {
  import opened Ordering

  predicate RealLeq(x: real, y: real)
  {
    x <= y
  }

  function Insert(x: real, s: seq<real>): (r: seq<real>)
    requires Ordered(RealLeq, s)
    ensures multiset(r) == multiset(s) + multiset{x}
    ensures Ordered(RealLeq, r)
  {
    if s == [] || x <= s[0] then
      assert s != [] ==> forall i :: 0 < i < |s| ==> RealLeq(s[0], s[i]);
      [x] + s
    else
      var tail := Insert(x, s[1..]);
      assert s == [s[0]] + s[1..];
      InsertBelow(s[0], x, s[1..], tail);
      [s[0]] + tail
  }

  lemma InsertBelow(low: real, x: real, s: seq<real>, r: seq<real>)
    requires multiset(r) == multiset(s) + multiset{x} && low <= x
    requires Ordered(RealLeq, [low] + s)
    ensures forall i :: 0 <= i < |r| ==> low <= r[i]
  {
    forall i | 0 <= i < |r| ensures low <= r[i] {
      assert r[i] in multiset(r);
      if r[i] != x {
        var j :| 0 <= j < |s| && s[j] == r[i];
        assert RealLeq(([low] + s)[0], ([low] + s)[j + 1]);
      }
    }
  }

  /** Python's sorted on numbers. */
  function Sorted(s: seq<real>): (r: seq<real>)
    ensures Ordered(RealLeq, r) && multiset(r) == multiset(s) && |r| == |s|
  {
    if s == [] then []
    else
      var n := |s| - 1;
      var r := Insert(s[n], Sorted(s[..n]));
      assert s == s[..n] + [s[n]];
      assert |multiset(r)| == |r| && |multiset(s)| == |s|;
      r
  }

  /** The value at a possibly fractional rank of an ordered list. */
  function AtRank(ordered: seq<real>, rank: real): real
    requires ordered != [] && 0.0 <= rank <= (|ordered| - 1) as real
  {
    var lower := rank.Floor;
    if lower as real == rank then ordered[lower]
    else ordered[lower] + (ordered[lower + 1] - ordered[lower]) * (rank - lower as real)
  }

  function Rank(n: nat, probability: real): (r: real)
    requires n > 0 && 0.0 <= probability <= 1.0
    ensures 0.0 <= r <= (n - 1) as real
  {
    ScaleBound((n - 1) as real, probability);
    (n - 1) as real * probability
  }

  lemma ProductNonNegative(a: real, b: real)
    requires a >= 0.0 && b >= 0.0
    ensures a * b >= 0.0
  {
  }

  lemma ScaleBound(a: real, p: real)
    requires a >= 0.0 && 0.0 <= p <= 1.0
    ensures 0.0 <= a * p <= a
  {
    ProductNonNegative(a, 1.0 - p);
    ProductNonNegative(a, p);
    assert a * (1.0 - p) == a - a * p;
  }

  /** None for an empty list, never a number. */
  function PercentileCont(values: seq<real>, probability: real): Option<real>
    requires 0.0 <= probability <= 1.0
  {
    if values == [] then None
    else Some(AtRank(Sorted(values), Rank(|values|, probability)))
  }

  // ---------- properties ----------

  lemma PercentileIgnoresOrder(values: seq<real>, other: seq<real>, probability: real)
    requires 0.0 <= probability <= 1.0 && multiset(values) == multiset(other)
    ensures PercentileCont(values, probability) == PercentileCont(other, probability)
  {
    SameLength(values, other);
    OrderedUnique(RealLeq, Sorted(values), Sorted(other));
  }

  /** How many entries satisfy a test, wherever they stand. */
  function Count(s: seq<real>, test: real -> bool): (n: nat)
    ensures n <= |s|
  {
    if s == [] then 0 else (if test(s[0]) then 1 else 0) + Count(s[1..], test)
  }

  lemma {:induction false} CountConcat(s: seq<real>, t: seq<real>, test: real -> bool)
    ensures Count(s + t, test) == Count(s, test) + Count(t, test)
  {
    if s == [] {
      assert s + t == t;
    } else {
      assert (s + t)[1..] == s[1..] + t;
      CountConcat(s[1..], t, test);
    }
  }

  lemma {:induction false} CountInsert(x: real, s: seq<real>, test: real -> bool)
    requires Ordered(RealLeq, s)
    ensures Count(Insert(x, s), test) == Count(s, test) + Count([x], test)
  {
    if s == [] || x <= s[0] {
      CountConcat([x], s, test);
    } else {
      CountInsert(x, s[1..], test);
      InsertUnfold(x, s);
    }
  }

  lemma {:induction false} SortingKeepsCounts(s: seq<real>, test: real -> bool)
    ensures Count(Sorted(s), test) == Count(s, test)
  {
    if s != [] {
      var n := |s| - 1;
      SortingKeepsCounts(s[..n], test);
      CountInsert(s[n], Sorted(s[..n]), test);
      CountConcat(s[..n], [s[n]], test);
      assert s == s[..n] + [s[n]];
    }
  }

  lemma {:induction false} CountAll(s: seq<real>, test: real -> bool)
    ensures (forall i :: 0 <= i < |s| ==> test(s[i])) ==> Count(s, test) == |s|
    ensures (forall i :: 0 <= i < |s| ==> !test(s[i])) ==> Count(s, test) == 0
  {
    if s != [] {
      CountAll(s[1..], test);
      assert forall i :: 0 <= i < |s[1..]| ==> s[1..][i] == s[i + 1];
    }
  }

  function AtMost(v: real): real -> bool { x => x <= v }
  function Under(v: real): real -> bool { x => x < v }

  /** At an integral rank k the percentile is the k-th order statistic of the values: one of
      them, with more than k values at or under it and no more than k strictly under it. */
  lemma PercentileAtIntegralRank(values: seq<real>, probability: real, k: nat)
    requires 0.0 <= probability <= 1.0 && k < |values|
    requires (|values| - 1) as real * probability == k as real
    ensures var p := PercentileCont(values, probability).value;
      p in values && Count(values, AtMost(p)) > k >= Count(values, Under(p))
  {
    var s := Sorted(values);
    var p := s[k];
    assert PercentileCont(values, probability) == Some(p);
    assert p in multiset(s);
    OrderStatistic(s, k);
    SortingKeepsCounts(values, AtMost(p));
    SortingKeepsCounts(values, Under(p));
  }

  lemma OrderStatistic(s: seq<real>, k: nat)
    requires k < |s| && Ordered(RealLeq, s)
    ensures Count(s, AtMost(s[k])) > k >= Count(s, Under(s[k]))
  {
    CountPrefix(s, k);
    CountSuffix(s, k);
  }

  lemma CountPrefix(s: seq<real>, k: nat)
    requires k < |s| && Ordered(RealLeq, s)
    ensures Count(s, AtMost(s[k])) > k
  {
    var low := s[..k + 1];
    forall i | 0 <= i < |low| ensures AtMost(s[k])(low[i]) { assert i == k || RealLeq(s[i], s[k]); }
    CountAll(low, AtMost(s[k]));
    assert s == low + s[k + 1..];
    CountConcat(low, s[k + 1..], AtMost(s[k]));
  }

  lemma CountSuffix(s: seq<real>, k: nat)
    requires k < |s| && Ordered(RealLeq, s)
    ensures k >= Count(s, Under(s[k]))
  {
    var high := s[k..];
    forall i | 0 <= i < |high| ensures !Under(s[k])(high[i]) { assert i == 0 || RealLeq(s[k], s[k + i]); }
    CountAll(high, Under(s[k]));
    assert s == s[..k] + high;
    CountConcat(s[..k], high, Under(s[k]));
  }

  lemma AtRankBetween(s: seq<real>, rank: real)
    requires s != [] && 0.0 <= rank <= (|s| - 1) as real && Ordered(RealLeq, s)
    ensures s[rank.Floor] <= AtRank(s, rank)
    ensures rank.Floor + 1 < |s| ==> AtRank(s, rank) <= s[rank.Floor + 1]
    ensures rank.Floor + 1 == |s| ==> AtRank(s, rank) == s[rank.Floor]
  {
    var k := rank.Floor;
    if k + 1 < |s| {
      assert RealLeq(s[k], s[k + 1]);
      var gap, f := s[k + 1] - s[k], rank - k as real;
      ScaleBound(gap, f);
      assert k as real != rank ==> AtRank(s, rank) == s[k] + gap * f;
    }
  }

  lemma PercentileWithinRange(values: seq<real>, probability: real)
    requires values != [] && 0.0 <= probability <= 1.0
    ensures var p := PercentileCont(values, probability).value;
      && (exists low :: low in values && low <= p && forall v :: v in values ==> low <= v)
      && (exists high :: high in values && p <= high && forall v :: v in values ==> v <= high)
  {
    var s := Sorted(values);
    var rank := Rank(|values|, probability);
    var k := rank.Floor;
    AtRankBetween(s, rank);
    SortedEnds(values);
    SortedMember(values, k);
    if k + 1 < |s| { SortedMember(values, k + 1); }
  }

  lemma SortedMember(values: seq<real>, k: nat)
    requires k < |values|
    ensures Sorted(values)[k] in values
  {
    assert Sorted(values)[k] in multiset(values);
  }

  lemma SortedEnds(values: seq<real>)
    requires values != []
    ensures var s := Sorted(values);
      s[0] in values && s[|s| - 1] in values && forall v :: v in values ==> s[0] <= v <= s[|s| - 1]
  {
    SortedMember(values, 0);
    SortedMember(values, |values| - 1);
    forall v | v in values ensures Sorted(values)[0] <= v <= Sorted(values)[|values| - 1] {
      SortedCovers(Sorted(values), values, v);
    }
  }

  lemma SortedCovers(s: seq<real>, values: seq<real>, v: real)
    requires Ordered(RealLeq, s) && multiset(s) == multiset(values) && v in values
    ensures s != [] && s[0] <= v <= s[|s| - 1]
  {
    assert v in multiset(s);
    var i :| 0 <= i < |s| && s[i] == v;
    assert i == 0 || RealLeq(s[0], s[i]);
    assert i == |s| - 1 || RealLeq(s[i], s[|s| - 1]);
  }

  lemma AtRankMonotone(s: seq<real>, r: real, t: real)
    requires s != [] && 0.0 <= r <= t <= (|s| - 1) as real && Ordered(RealLeq, s)
    ensures AtRank(s, r) <= AtRank(s, t)
  {
    AtRankBetween(s, r);
    AtRankBetween(s, t);
    var i, j := r.Floor, t.Floor;
    if i == j {
      if i + 1 < |s| {
        assert RealLeq(s[i], s[i + 1]);
        var gap := s[i + 1] - s[i];
        ProductNonNegative(gap, t - r);
        assert gap * (t - i as real) == gap * (r - i as real) + gap * (t - r);
      }
    } else {
      assert i + 1 == j || RealLeq(s[i + 1], s[j]);
    }
  }

  lemma PercentileMonotoneInProbability(values: seq<real>, p: real, q: real)
    requires values != [] && 0.0 <= p <= q <= 1.0
    ensures PercentileCont(values, p).value <= PercentileCont(values, q).value
  {
    var a := (|values| - 1) as real;
    ProductNonNegative(a, q - p);
    assert a * (q - p) == a * q - a * p;
    AtRankMonotone(Sorted(values), Rank(|values|, p), Rank(|values|, q));
  }

  ghost predicate Below(s: seq<real>, t: seq<real>)
  {
    |s| == |t| && forall i :: 0 <= i < |s| ==> s[i] <= t[i]
  }

  /** An ordered list is its head inserted into its tail. */
  lemma InsertHead(s: seq<real>)
    requires s != [] && Ordered(RealLeq, s)
    ensures Ordered(RealLeq, s[1..]) && Insert(s[0], s[1..]) == s
  {
    assert s == [s[0]] + s[1..];
    if |s| > 1 { assert RealLeq(s[0], s[1]) && s[1..][0] == s[1]; }
  }

  /** Inserting a smaller number into a pointwise smaller list keeps it pointwise smaller,
      even when the two land at different places. */
  lemma {:induction false} InsertKeepsBelow(x: real, s: seq<real>, y: real, t: seq<real>)
    requires Ordered(RealLeq, s) && Ordered(RealLeq, t) && Below(s, t) && x <= y
    ensures Below(Insert(x, s), Insert(y, t))
    decreases |s|
  {
    if s != [] {
      InsertHead(s);
      InsertHead(t);
      var x', y' := if x <= s[0] then s[0] else x, if y <= t[0] then t[0] else y;
      InsertKeepsBelow(x', s[1..], y', t[1..]);
      InsertUnfold(x, s);
      InsertUnfold(y, t);
      var first, first' := if x <= s[0] then x else s[0], if y <= t[0] then y else t[0];
      BelowCons(first, Insert(x', s[1..]), first', Insert(y', t[1..]));
    }
  }

  lemma BelowCons(a: real, s: seq<real>, b: real, t: seq<real>)
    requires a <= b && Below(s, t)
    ensures Below([a] + s, [b] + t)
  {
  }

  /** The smaller of x and the head comes first, the other one goes into the tail. */
  lemma InsertUnfold(x: real, s: seq<real>)
    requires s != [] && Ordered(RealLeq, s)
    ensures Ordered(RealLeq, s[1..])
    ensures Insert(x, s) == [if x <= s[0] then x else s[0]] + Insert(if x <= s[0] then s[0] else x, s[1..])
  {
    InsertHead(s);
  }

  lemma {:induction false} SortingKeepsBelow(s: seq<real>, t: seq<real>)
    requires Below(s, t)
    ensures Below(Sorted(s), Sorted(t))
  {
    if s != [] {
      var n := |s| - 1;
      SortingKeepsBelow(s[..n], t[..n]);
      InsertKeepsBelow(s[n], Sorted(s[..n]), t[n], Sorted(t[..n]));
    }
  }

  lemma AtRankBelow(s: seq<real>, t: seq<real>, rank: real)
    requires s != [] && Below(s, t) && 0.0 <= rank <= (|s| - 1) as real
    ensures AtRank(s, rank) <= AtRank(t, rank)
  {
    var k := rank.Floor;
    if k as real != rank {
      var f := rank - k as real;
      assert AtRank(s, rank) == s[k] * (1.0 - f) + s[k + 1] * f;
      assert AtRank(t, rank) == t[k] * (1.0 - f) + t[k + 1] * f;
      ProductNonNegative(t[k] - s[k], 1.0 - f);
      ProductNonNegative(t[k + 1] - s[k + 1], f);
    }
  }

  /** Raising any of the values never lowers the percentile. */
  lemma PercentileMonotoneInValues(values: seq<real>, raised: seq<real>, probability: real)
    requires values != [] && Below(values, raised) && 0.0 <= probability <= 1.0
    ensures PercentileCont(values, probability).value <= PercentileCont(raised, probability).value
  {
    SortingKeepsBelow(values, raised);
    AtRankBelow(Sorted(values), Sorted(raised), Rank(|values|, probability));
  }

  // ---------- between two ranks ----------

  /** The k-th smallest of the values, counted from zero: one of them, with more than k values at or
      under it and no more than k strictly under it. */
  predicate IsOrderStatistic(values: seq<real>, k: nat, v: real)
  {
    v in values && Count(values, AtMost(v)) > k >= Count(values, Under(v))
  }

  lemma {:induction false} CountMonotone(s: seq<real>, p: real -> bool, q: real -> bool)
    requires forall x :: p(x) ==> q(x)
    ensures Count(s, p) <= Count(s, q)
  {
    if s != [] { CountMonotone(s[1..], p, q); }
  }

  /** There is one k-th smallest value. */
  lemma OrderStatisticIsUnique(values: seq<real>, k: nat, v: real, w: real)
    requires IsOrderStatistic(values, k, v) && IsOrderStatistic(values, k, w)
    ensures v == w
  {
    if v < w { CountMonotone(values, AtMost(v), Under(w)); }
    if w < v { CountMonotone(values, AtMost(w), Under(v)); }
  }

  lemma SortedIsOrderStatistic(values: seq<real>, k: nat)
    requires k < |values|
    ensures IsOrderStatistic(values, k, Sorted(values)[k])
  {
    var s := Sorted(values);
    SortedMember(values, k);
    OrderStatistic(s, k);
    SortingKeepsCounts(values, AtMost(s[k]));
    SortingKeepsCounts(values, Under(s[k]));
  }

  /** The k-th smallest value and the next. */
  predicate Neighbours(values: seq<real>, k: nat, low: real, high: real)
  {
    IsOrderStatistic(values, k, low) && IsOrderStatistic(values, k + 1, high)
  }

  /** v lies between the k-th smallest value and the next, the fraction f of the way. */
  ghost predicate Interpolates(values: seq<real>, k: nat, f: real, v: real)
  {
    && 0.0 <= f < 1.0
    && (f == 0.0 ==> IsOrderStatistic(values, k, v))
    && (f > 0.0 ==> exists low, high :: Neighbours(values, k, low, high) && v == (1.0 - f) * low + f * high)
  }

  /** At rank k + f, which is the probability's share of n - 1, the percentile is (1 - f) times the k-th
      smallest value plus f times the next one. */
  lemma PercentileInterpolates(values: seq<real>, probability: real) returns (k: nat, f: real)
    requires values != [] && 0.0 <= probability <= 1.0
    ensures k as real + f == (|values| - 1) as real * probability && k < |values|
    ensures Interpolates(values, k, f, PercentileCont(values, probability).value)
  {
    var s, rank := Sorted(values), Rank(|values|, probability);
    k := rank.Floor;
    f := rank - k as real;
    SortedIsOrderStatistic(values, k);
    if f > 0.0 {
      SortedIsOrderStatistic(values, k + 1);
      assert Neighbours(values, k, s[k], s[k + 1]);
      assert s[k] + (s[k + 1] - s[k]) * f == (1.0 - f) * s[k] + f * s[k + 1];
    }
  }
}
