/** CoverageGaps (internal/adaptersdk/types.go): a per-class count of the entries a scan found
    but could not inventory. */
module CoverageGaps {
  type GapClass = string
  type Tally = map<GapClass, int>

  const UNRESOLVABLE_SYMLINK: GapClass := "unresolvable_symlink"
  const UNREADABLE: GapClass := "unreadable_component_manifest"
  const TRUNCATED: GapClass := "truncated_component_manifest"
  const UNPARSEABLE: GapClass := "unparseable_component_manifest"

  predicate ValidClass(gap: GapClass)
  {
    gap in {UNRESOLVABLE_SYMLINK, UNREADABLE, TRUNCATED, UNPARSEABLE}
  }

  function Count(tally: Tally, gap: GapClass): int
  {
    if gap in tally then tally[gap] else 0
  }

  /** A class outside the vocabulary is recorded as unparseable, not dropped. */
  function Added(tally: Tally, gap: GapClass): Tally
  {
    var known := if ValidClass(gap) then gap else UNPARSEABLE;
    tally[known := Count(tally, known) + 1]
  }

  /** One more of the class, or of unparseable manifests if the class is not one of the four. */
  lemma AddedMeans(tally: Tally, gap: GapClass, other: GapClass)
    ensures Count(Added(tally, gap), other) == Count(tally, other) +
      if other == (if gap in {"unresolvable_symlink", "unreadable_component_manifest", "truncated_component_manifest"}
                   then gap else "unparseable_component_manifest") then 1 else 0
  {
  }

  function Merged(tally: Tally, other: Tally): Tally
  {
    map gap | gap in tally.Keys + other.Keys :: Count(tally, gap) + Count(other, gap)
  }

  ghost function SumKeys(keys: set<GapClass>, tally: Tally): int
  {
    if keys == {} then 0
    else
      var k :| k in keys;
      Count(tally, k) + SumKeys(keys - {k}, tally)
  }

  ghost function TotalOf(tally: Tally): int
  {
    SumKeys(tally.Keys, tally)
  }

  lemma {:induction false} SumKeysSplit(keys: set<GapClass>, tally: Tally, k: GapClass)
    requires k in keys
    ensures SumKeys(keys, tally) == Count(tally, k) + SumKeys(keys - {k}, tally)
    decreases keys
  {
    var p :| p in keys && SumKeys(keys, tally) == Count(tally, p) + SumKeys(keys - {p}, tally);
    if p != k {
      SumKeysSplit(keys - {p}, tally, k);
      SumKeysSplit(keys - {k}, tally, p);
      assert keys - {p} - {k} == keys - {k} - {p};
    }
  }

  lemma {:induction false} SumKeysAgree(keys: set<GapClass>, tally: Tally, other: Tally)
    requires forall k :: k in keys ==> Count(tally, k) == Count(other, k)
    ensures SumKeys(keys, tally) == SumKeys(keys, other)
    decreases keys
  {
    if keys != {} {
      var k :| k in keys;
      SumKeysAgree(keys - {k}, tally, other);
      SumKeysSplit(keys, tally, k);
      SumKeysSplit(keys, other, k);
    }
  }

  /** Keys the tally does not hold add nothing. */
  lemma {:induction false} SumKeysExtra(keys: set<GapClass>, tally: Tally)
    requires tally.Keys <= keys
    ensures SumKeys(keys, tally) == TotalOf(tally)
    decreases keys
  {
    if keys != tally.Keys {
      var k :| k in keys && k !in tally;
      SumKeysSplit(keys, tally, k);
      SumKeysExtra(keys - {k}, tally);
    }
  }

  lemma {:induction false} SumKeysMerged(keys: set<GapClass>, tally: Tally, other: Tally, both: Tally)
    requires forall k :: k in keys ==> Count(both, k) == Count(tally, k) + Count(other, k)
    ensures SumKeys(keys, both) == SumKeys(keys, tally) + SumKeys(keys, other)
    decreases keys
  {
    if keys != {} {
      var k :| k in keys;
      SumKeysMerged(keys - {k}, tally, other, both);
      SumKeysSplit(keys, both, k);
      SumKeysSplit(keys, tally, k);
      SumKeysSplit(keys, other, k);
    }
  }

  /** Merging adds totals; recording one gap adds one. */
  lemma TotalsAdd(tally: Tally, other: Tally, gap: GapClass)
    ensures TotalOf(Merged(tally, other)) == TotalOf(tally) + TotalOf(other)
    ensures TotalOf(Added(tally, gap)) == TotalOf(tally) + 1
  {
    var keys := tally.Keys + other.Keys;
    SumKeysMerged(keys, tally, other, Merged(tally, other));
    SumKeysExtra(keys, tally);
    SumKeysExtra(keys, other);
    assert Merged(tally, other).Keys == keys;

    var known := if ValidClass(gap) then gap else UNPARSEABLE;
    var after := Added(tally, gap);
    assert after.Keys == tally.Keys + {known};
    SumKeysExtra(after.Keys, tally);
    SumKeysSplit(after.Keys, tally, known);
    SumKeysSplit(after.Keys, after, known);
    SumKeysAgree(after.Keys - {known}, tally, after);
  }

  /** A scan only ever counts up. */
  ghost predicate Counted(tally: Tally)
  {
    forall gap :: gap in tally ==> tally[gap] >= 0
  }

  lemma {:induction false} CountedTotal(keys: set<GapClass>, tally: Tally)
    requires Counted(tally)
    ensures SumKeys(keys, tally) >= 0
    ensures SumKeys(keys, tally) == 0 <==> forall k :: k in keys ==> Count(tally, k) == 0
    decreases keys
  {
    if keys != {} {
      var p :| p in keys && SumKeys(keys, tally) == Count(tally, p) + SumKeys(keys - {p}, tally);
      CountedTotal(keys - {p}, tally);
      assert (forall k :: k in keys ==> Count(tally, k) == 0) <==>
             Count(tally, p) == 0 && forall k :: k in keys - {p} ==> Count(tally, k) == 0;
    }
  }

  /** The tally as the source holds it: one map changed in place. */
  class Gaps {
    var tally: Tally

    constructor ()
      ensures tally == map[]
    {
      tally := map[];
    }

    method Add(gap: GapClass)
      modifies this
      ensures tally == Added(old(tally), gap)
    {
      var known := gap;
      if !ValidClass(known) {
        known := UNPARSEABLE;
      }
      tally := tally[known := Count(tally, known) + 1];
    }

    method Merge(other: Tally)
      modifies this
      ensures tally == Merged(old(tally), other)
    {
      var rest := other.Keys;
      ghost var start := tally;
      while rest != {}
        invariant rest <= other.Keys
        invariant tally.Keys == start.Keys + (other.Keys - rest)
        invariant forall k :: k in tally ==>
          tally[k] == Count(start, k) + if k in other && k !in rest then other[k] else 0
        decreases rest
      {
        var k :| k in rest;
        tally := tally[k := Count(tally, k) + other[k]];
        rest := rest - {k};
      }
      assert tally.Keys == Merged(start, other).Keys;
    }

    method Total() returns (total: int)
      ensures total == TotalOf(tally)
    {
      total := 0;
      var rest := tally.Keys;
      while rest != {}
        invariant rest <= tally.Keys
        invariant total + SumKeys(rest, tally) == TotalOf(tally)
        decreases rest
      {
        var k :| k in rest;
        SumKeysSplit(rest, tally, k);
        total := total + tally[k];
        rest := rest - {k};
      }
    }
  }
}
