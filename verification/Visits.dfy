/** Scanning a listing entry by entry: what each entry comes to, what is found, what is recorded as
    a gap, and how far a scan with a limit on its findings gets. */
module Visits {
  import opened Ordering
  import opened CoverageGaps
  import opened HostTree

  /** What an entry comes to. Absent is a plain entry without the file that would make it count;
      Ineligible was never a candidate. */
  datatype Visit<+T> = Found(item: T) | Missed(gap: GapClass) | Absent | Ineligible

  function FoundIn<T>(visit: Entry -> Visit<T>, entries: seq<Entry>): seq<T>
  {
    if entries == [] then []
    else
      var before, e := FoundIn(visit, entries[..|entries| - 1]), entries[|entries| - 1];
      if visit(e).Found? then before + [visit(e).item] else before
  }

  function GapsIn<T>(visit: Entry -> Visit<T>, entries: seq<Entry>): Tally
  {
    if entries == [] then map[]
    else
      var before, e := GapsIn(visit, entries[..|entries| - 1]), entries[|entries| - 1];
      if visit(e).Missed? then Added(before, visit(e).gap) else before
  }

  function CountOf(p: Entry -> bool, entries: seq<Entry>): nat
  {
    if entries == [] then 0
    else CountOf(p, entries[..|entries| - 1]) + if p(entries[|entries| - 1]) then 1 else 0
  }

  function IsCandidate<T>(visit: Entry -> Visit<T>): Entry -> bool
  {
    (e: Entry) => !visit(e).Ineligible?
  }

  function IsAbsent<T>(visit: Entry -> Visit<T>): Entry -> bool
  {
    (e: Entry) => visit(e).Absent?
  }

  function IsMissed<T>(visit: Entry -> Visit<T>, gap: GapClass): Entry -> bool
  {
    (e: Entry) => visit(e).Missed? && visit(e).gap == gap
  }

  lemma OneMoreEntry<T>(visit: Entry -> Visit<T>, front: seq<Entry>, e: Entry)
    ensures FoundIn(visit, front + [e]) == FoundIn(visit, front) + if visit(e).Found? then [visit(e).item] else []
    ensures GapsIn(visit, front + [e]) ==
      if visit(e).Missed? then Added(GapsIn(visit, front), visit(e).gap) else GapsIn(visit, front)
  {
    assert (front + [e])[..|front|] == front;
  }

  lemma NoEntries<T>(visit: Entry -> Visit<T>, none: seq<Entry>)
    requires none == []
    ensures FoundIn(visit, none) == [] && GapsIn(visit, none) == map[]
  {
  }

  // ---------- accounting ----------

  /** Every candidate entry is found, recorded as a gap, or absent. */
  lemma {:induction false} EntriesAccounted<T>(visit: Entry -> Visit<T>, entries: seq<Entry>)
    ensures CountOf(IsCandidate(visit), entries) ==
      |FoundIn(visit, entries)| + TotalOf(GapsIn(visit, entries)) + CountOf(IsAbsent(visit), entries)
  {
    hide Added;
    if entries != [] {
      var n := |entries| - 1;
      EntriesAccounted(visit, entries[..n]);
      if visit(entries[n]).Missed? {
        TotalsAdd(GapsIn(visit, entries[..n]), map[], visit(entries[n]).gap);
      }
    }
  }

  /** Only classes of the vocabulary are recorded. */
  ghost predicate Classified<T>(visit: Entry -> Visit<T>)
  {
    forall e :: visit(e).Missed? ==> ValidClass(visit(e).gap)
  }

  /** Each class counts exactly the entries missed for that reason. */
  lemma {:induction false} CountedByCause<T>(visit: Entry -> Visit<T>, entries: seq<Entry>, gap: GapClass)
    requires Classified(visit)
    ensures Count(GapsIn(visit, entries), gap) == CountOf(IsMissed(visit, gap), entries)
  {
    if entries != [] {
      var n := |entries| - 1;
      CountedByCause(visit, entries[..n], gap);
      assert visit(entries[n]).Missed? ==> ValidClass(visit(entries[n]).gap);
    }
  }

  /** A total of zero says exactly that no entry was missed. */
  lemma {:induction false} NoGapsMeansNoneMissed<T>(visit: Entry -> Visit<T>, entries: seq<Entry>)
    ensures TotalOf(GapsIn(visit, entries)) >= 0
    ensures TotalOf(GapsIn(visit, entries)) == 0 <==> forall e :: e in entries ==> !visit(e).Missed?
  {
    hide Added;
    if entries != [] {
      var n := |entries| - 1;
      var front, e := entries[..n], entries[n];
      assert entries == front + [e];
      NoGapsMeansNoneMissed(visit, front);
      if visit(e).Missed? {
        TotalsAdd(GapsIn(visit, front), map[], visit(e).gap);
        assert e in entries;
      }
    } else {
      assert TotalOf(map[]) == 0;
    }
  }

  lemma {:induction false} FoundMember<T>(visit: Entry -> Visit<T>, entries: seq<Entry>, x: T)
    ensures x in FoundIn(visit, entries) <==> exists e :: e in entries && visit(e) == Found(x)
  {
    if entries != [] {
      var n := |entries| - 1;
      assert entries == entries[..n] + [entries[n]];
      FoundMember(visit, entries[..n], x);
    }
  }

  // ---------- distinct findings ----------

  /** A key that tells the findings of different entries apart. */
  ghost predicate Separates<T, K>(visit: Entry -> Visit<T>, key: T -> K)
  {
    forall e, f {:trigger visit(e), visit(f)} ::
      visit(e).Found? && visit(f).Found? && key(visit(e).item) == key(visit(f).item) ==> e.name == f.name
  }

  lemma {:induction false} FoundDistinct<T, K>(visit: Entry -> Visit<T>, key: T -> K, entries: seq<Entry>)
    requires Separates(visit, key) && NoDuplicates(Map(EntryName(), entries))
    ensures NoDuplicates(Map(key, FoundIn(visit, entries)))
  {
    if entries != [] {
      var n := |entries| - 1;
      var front, e, names := entries[..n], entries[n], Map(EntryName(), entries);
      assert entries == front + [e];
      assert NoDuplicates(Map(EntryName(), front)) by { assert Map(EntryName(), front) == names[..n]; }
      FoundDistinct(visit, key, front);
      var before := FoundIn(visit, front);
      if visit(e).Found? {
        var x := visit(e).item;
        forall i | 0 <= i < |before| ensures key(before[i]) != key(x) {
          FoundMember(visit, front, before[i]);
          var f :| f in front && visit(f) == Found(before[i]);
          var k :| 0 <= k < n && front[k] == f;
          assert names[k] != names[n];
        }
        assert Map(key, before + [x]) == Map(key, before) + [key(x)];
        NoDuplicatesSnoc(Map(key, before), key(x));
      }
    }
  }

  // ---------- a limit on the findings ----------

  /** The entries a scan comes to that stops once it has found limit items. */
  function Reached<T>(visit: Entry -> Visit<T>, limit: nat, entries: seq<Entry>): seq<Entry>
  {
    if entries == [] then []
    else
      var before := Reached(visit, limit, entries[..|entries| - 1]);
      if |FoundIn(visit, before)| >= limit then before else before + [entries[|entries| - 1]]
  }

  /** They are a beginning of the listing: all of it, or up to the limit-th finding. */
  lemma {:induction false} ReachedIsPrefix<T>(visit: Entry -> Visit<T>, limit: nat, entries: seq<Entry>)
    ensures Reached(visit, limit, entries) <= entries
    ensures |FoundIn(visit, Reached(visit, limit, entries))| <= limit
    ensures Reached(visit, limit, entries) == entries || |FoundIn(visit, Reached(visit, limit, entries))| == limit
  {
    if entries != [] {
      var n := |entries| - 1;
      var before := Reached(visit, limit, entries[..n]);
      ReachedIsPrefix(visit, limit, entries[..n]);
      assert entries == entries[..n] + [entries[n]];
      OneMoreEntry(visit, before, entries[n]);
    }
  }

  lemma ReachedSnoc<T>(visit: Entry -> Visit<T>, limit: nat, front: seq<Entry>, e: Entry)
    ensures var before := Reached(visit, limit, front);
      Reached(visit, limit, front + [e]) == if |FoundIn(visit, before)| >= limit then before else before + [e]
  {
    assert (front + [e])[..|front|] == front;
  }

  /** Once the limit is reached nothing more is visited. */
  lemma {:induction false} ReachedStays<T>(visit: Entry -> Visit<T>, limit: nat, entries: seq<Entry>, i: nat)
    requires i <= |entries| && |FoundIn(visit, Reached(visit, limit, entries[..i]))| >= limit
    ensures Reached(visit, limit, entries) == Reached(visit, limit, entries[..i])
  {
    hide FoundIn;
    if i == |entries| {
      assert entries[..i] == entries;
    } else {
      var n := |entries| - 1;
      assert entries[..n][..i] == entries[..i];
      ReachedStays(visit, limit, entries[..n], i);
    }
  }

  /** The entries past the last one visited. */
  function Unreached<T>(visit: Entry -> Visit<T>, limit: nat, entries: seq<Entry>): seq<Entry>
  {
    ReachedIsPrefix(visit, limit, entries);
    entries[|Reached(visit, limit, entries)|..]
  }

  lemma {:induction false} CountConcat(p: Entry -> bool, s: seq<Entry>, t: seq<Entry>)
    ensures CountOf(p, s + t) == CountOf(p, s) + CountOf(p, t)
  {
    if t == [] {
      assert s + t == s;
    } else {
      var n := |t| - 1;
      assert (s + t)[..|s| + n] == s + t[..n];
      CountConcat(p, s, t[..n]);
    }
  }

  /** The books of a limited scan: candidates are found, recorded as gaps, absent, or past the
      limit. */
  lemma LimitedAccounted<T>(visit: Entry -> Visit<T>, limit: nat, entries: seq<Entry>)
    ensures var reached := Reached(visit, limit, entries);
      CountOf(IsCandidate(visit), entries) ==
        |FoundIn(visit, reached)| + TotalOf(GapsIn(visit, reached)) + CountOf(IsAbsent(visit), reached)
        + CountOf(IsCandidate(visit), Unreached(visit, limit, entries))
  {
    hide IsCandidate, IsAbsent, CountOf, Reached;
    var reached := Reached(visit, limit, entries);
    ReachedIsPrefix(visit, limit, entries);
    assert entries == reached + Unreached(visit, limit, entries);
    CountConcat(IsCandidate(visit), reached, Unreached(visit, limit, entries));
    EntriesAccounted(visit, reached);
  }

  // ---------- nothing lost in a listing ----------

  /** Every entry of a listing is in the findings, or was never to be there. */
  ghost predicate AllKept<T>(visit: Entry -> Visit<T>, entries: seq<Entry>, kept: seq<T>)
  {
    forall e :: e in entries ==> match visit(e) case Found(x) => x in kept case Missed(_) => false case _ => true
  }

  /** No candidate with anything to it lies past the limit. */
  ghost predicate LimitLosesNothing<T>(visit: Entry -> Visit<T>, limit: nat, entries: seq<Entry>)
  {
    forall e :: e in Unreached(visit, limit, entries) ==> visit(e).Absent? || visit(e).Ineligible?
  }

  /** A limited scan keeps everything exactly when it records no gap and nothing lies past its
      limit; a finding past the limit is not also one before it. */
  lemma LimitedKeepsAllIff<T, K>(visit: Entry -> Visit<T>, key: T -> K, limit: nat, entries: seq<Entry>)
    requires Separates(visit, key) && NoDuplicates(Map(EntryName(), entries))
    ensures var reached := Reached(visit, limit, entries);
      AllKept(visit, entries, FoundIn(visit, reached)) <==>
        TotalOf(GapsIn(visit, reached)) == 0 && LimitLosesNothing(visit, limit, entries)
  {
    var reached, rest := Reached(visit, limit, entries), Unreached(visit, limit, entries);
    ReachedIsPrefix(visit, limit, entries);
    assert entries == reached + rest;
    NoGapsMeansNoneMissed(visit, reached);
    forall e | e in reached && visit(e).Found? ensures visit(e).item in FoundIn(visit, reached) {
      FoundMember(visit, reached, visit(e).item);
    }
    forall e | e in rest && visit(e).Found? ensures visit(e).item !in FoundIn(visit, reached) {
      NotFoundBefore(visit, key, reached, rest, e);
    }
  }

  lemma NotFoundBefore<T, K>(visit: Entry -> Visit<T>, key: T -> K, front: seq<Entry>, back: seq<Entry>, e: Entry)
    requires Separates(visit, key) && NoDuplicates(Map(EntryName(), front + back))
    requires e in back && visit(e).Found?
    ensures visit(e).item !in FoundIn(visit, front)
  {
    FoundMember(visit, front, visit(e).item);
    var names := Map(EntryName(), front + back);
    forall f | f in front ensures f.name != e.name {
      var i :| 0 <= i < |front| && front[i] == f;
      var j :| 0 <= j < |back| && back[j] == e;
      assert names[i] != names[|front| + j];
    }
  }
}
