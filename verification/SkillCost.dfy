/** AttributeSkillCost (internal/claudeadapter/reconcile.go): per-skill token and cost
    attribution with a guard against counting one call twice. Token counts and costs are
    unbounded integers, a cost in whatever unit makes it one; sums never round. */
module SkillCost {
  import opened Ordering

  datatype Observation = Observation(
    identity: string,
    source: string,
    skill: string,
    tokens: int,
    cost: int,
    native: bool,
    concurrentShare: bool)

  datatype Call = Call(skill: string, identity: string)

  datatype Attribution = Attribution(
    skill: string,
    calls: nat,
    excluded: int,
    shareNoted: bool,
    tokens: int,
    cost: int)

  predicate Valid(o: Observation)
  {
    o.skill != "" && o.identity != ""
  }

  function CallOf(o: Observation): Call
  {
    Call(o.skill, o.identity)
  }

  // ---------- selecting and summing ----------

  function OfSkill(skill: string): Observation -> bool
  {
    o => Valid(o) && o.skill == skill
  }

  function OfCall(call: Call): Observation -> bool
  {
    o => Valid(o) && CallOf(o) == call
  }

  /** The observations that pass a test, in order. */
  function Select(observations: seq<Observation>, test: Observation -> bool): seq<Observation>
  {
    if observations == [] then []
    else
      var rest, o := Select(observations[..|observations| - 1], test), observations[|observations| - 1];
      if test(o) then rest + [o] else rest
  }

  lemma SelectSnoc(front: seq<Observation>, last: Observation, test: Observation -> bool)
    ensures Select(front + [last], test) == Select(front, test) + if test(last) then [last] else []
  {
    assert (front + [last])[..|front|] == front;
  }

  type Weight = Observation -> int

  function SumOf(observations: seq<Observation>, w: Weight): int
  {
    if observations == [] then 0
    else SumOf(observations[..|observations| - 1], w) + w(observations[|observations| - 1])
  }

  lemma SumSnoc(front: seq<Observation>, last: Observation, w: Weight)
    ensures SumOf(front + [last], w) == SumOf(front, w) + w(last)
  {
    assert (front + [last])[..|front|] == front;
  }

  lemma {:induction false} SumConcat(s: seq<Observation>, t: seq<Observation>, w: Weight)
    ensures SumOf(s + t, w) == SumOf(s, w) + SumOf(t, w)
  {
    if t == [] {
      assert s + t == s;
    } else {
      var n := |t| - 1;
      assert s + t == (s + t[..n]) + [t[n]];
      SumConcat(s, t[..n], w);
      SumSnoc(s + t[..n], t[n], w);
    }
  }

  /** Every figure is a sum: sightings count one each, only native ones bring tokens and cost. */
  function Unit(): Weight { (_: Observation) => 1 }
  function Tokens(): Weight { (o: Observation) => if o.native then o.tokens else 0 }
  function Cost(): Weight { (o: Observation) => if o.native then o.cost else 0 }
  function Shared(): Weight { (o: Observation) => if o.concurrentShare then 1 else 0 }

  lemma {:induction false} UnitSum(observations: seq<Observation>)
    ensures SumOf(observations, Unit()) == |observations|
  {
    if observations != [] { UnitSum(observations[..|observations| - 1]); }
  }

  predicate AnyShared(observations: seq<Observation>)
  {
    exists o :: o in observations && o.concurrentShare
  }

  lemma {:induction false} SharedSum(observations: seq<Observation>)
    ensures SumOf(observations, Shared()) >= 0
    ensures SumOf(observations, Shared()) > 0 <==> AnyShared(observations)
  {
    if observations != [] {
      var n := |observations| - 1;
      SharedSum(observations[..n]);
      assert observations == observations[..n] + [observations[n]];
    }
  }

  // ---------- what the attribution must be ----------

  function SightingsOf(observations: seq<Observation>, skill: string): seq<Observation>
  {
    Select(observations, OfSkill(skill))
  }

  /** The distinct calls of one skill. */
  function Identities(observations: seq<Observation>, skill: string): set<string>
  {
    set o | o in observations && Valid(o) && o.skill == skill :: o.identity
  }

  /** Straight from the observations of the skill, with no grouping by call. */
  function Expected(observations: seq<Observation>, skill: string): Attribution
  {
    var sightings, calls := SightingsOf(observations, skill), |Identities(observations, skill)|;
    Attribution(skill, calls, |sightings| - calls, AnyShared(sightings),
                SumOf(sightings, Tokens()), SumOf(sightings, Cost()))
  }

  // ---------- the grouping ----------

  function Group(observations: seq<Observation>, call: Call): seq<Observation>
  {
    Select(observations, OfCall(call))
  }

  predicate CallLeq(a: Call, b: Call)
  {
    if a.skill != b.skill then StringLeq(a.skill, b.skill) else StringLeq(a.identity, b.identity)
  }

  lemma CallLeqIsOrder()
    ensures Total(CallLeq) && Transitive(CallLeq)
  {
    forall a, b ensures CallLeq(a, b) || CallLeq(b, a) {
      StringLeqTotal(a.skill, b.skill);
      StringLeqTotal(a.identity, b.identity);
    }
    forall a, b, c | CallLeq(a, b) && CallLeq(b, c) ensures CallLeq(a, c) {
      if a.skill == b.skill == c.skill {
        StringLeqTransitive(a.identity, b.identity, c.identity);
      } else if a.skill != b.skill && b.skill != c.skill {
        StringLeqTransitive(a.skill, b.skill, c.skill);
        if a.skill == c.skill { StringLeqAntisymmetric(a.skill, b.skill); }
      }
    }
  }

  ghost predicate Grouped(observations: seq<Observation>, groups: map<Call, seq<Observation>>, order: seq<Call>)
  {
    && NoDuplicates(order)
    && (forall call :: call in order <==> call in groups)
    && (forall call :: call in groups <==> Group(observations, call) != [])
    && (forall call :: call in groups ==> groups[call] == Group(observations, call))
  }

  method GroupObservations(observations: seq<Observation>)
      returns (groups: map<Call, seq<Observation>>, order: seq<Call>)
    ensures Grouped(observations, groups, order)
  {
    groups, order := map[], [];
    for i := 0 to |observations|
      invariant Grouped(observations[..i], groups, order)
    {
      var o := observations[i];
      assert observations[..i + 1] == observations[..i] + [o];
      forall call
        ensures Group(observations[..i + 1], call) ==
          Group(observations[..i], call) + if OfCall(call)(o) then [o] else []
      {
        SelectSnoc(observations[..i], o, OfCall(call));
      }
      if Valid(o) {
        var key := CallOf(o);
        if key !in groups {
          order := order + [key];
          groups := groups[key := [o]];
        } else {
          groups := groups[key := groups[key] + [o]];
        }
      }
    }
    assert observations[..|observations|] == observations;
  }

  // ---------- the totals over calls ----------

  function CallsIn(order: seq<Call>, skill: string): nat
  {
    if order == [] then 0
    else CallsIn(order[..|order| - 1], skill) + (if order[|order| - 1].skill == skill then 1 else 0)
  }

  /** A figure summed call by call. */
  function SumOver(observations: seq<Observation>, order: seq<Call>, skill: string, w: Weight): int
  {
    if order == [] then 0
    else
      var rest, call := SumOver(observations, order[..|order| - 1], skill, w), order[|order| - 1];
      if call.skill == skill then rest + SumOf(Group(observations, call), w) else rest
  }

  lemma SumOverSnoc(observations: seq<Observation>, front: seq<Call>, call: Call, skill: string, w: Weight)
    ensures SumOver(observations, front + [call], skill, w) ==
      SumOver(observations, front, skill, w) + if call.skill == skill then SumOf(Group(observations, call), w) else 0
  {
    assert (front + [call])[..|front|] == front;
  }

  lemma CallsInSnoc(front: seq<Call>, call: Call, skill: string)
    ensures CallsIn(front + [call], skill) == CallsIn(front, skill) + if call.skill == skill then 1 else 0
  {
    assert (front + [call])[..|front|] == front;
  }

  /** What a skill's entry holds after some calls. */
  ghost predicate EntryAfter(e: Attribution, observations: seq<Observation>, order: seq<Call>, skill: string)
  {
    && e.skill == skill
    && e.calls == CallsIn(order, skill)
    && e.calls + e.excluded == SumOver(observations, order, skill, Unit())
    && (e.shareNoted <==> SumOver(observations, order, skill, Shared()) > 0)
    && e.tokens == SumOver(observations, order, skill, Tokens())
    && e.cost == SumOver(observations, order, skill, Cost())
    && SumOver(observations, order, skill, Shared()) >= 0
  }

  /** The accumulation for one call into its skill's entry. */
  method AddCall(entry: Attribution, group: seq<Observation>) returns (r: Attribution)
    requires group != []
    ensures r.skill == entry.skill && r.calls == entry.calls + 1
    ensures r.excluded == entry.excluded + |group| - 1
    ensures r.shareNoted == (entry.shareNoted || AnyShared(group))
    ensures r.tokens == entry.tokens + SumOf(group, Tokens()) && r.cost == entry.cost + SumOf(group, Cost())
  {
    r := entry.(calls := entry.calls + 1);
    if |group| > 1 {
      r := r.(excluded := r.excluded + |group| - 1);
    }
    var noted := r.shareNoted;
    for i := 0 to |group|
      invariant noted == (entry.shareNoted || AnyShared(group[..i]))
    {
      assert group[..i + 1] == group[..i] + [group[i]];
      if group[i].concurrentShare {
        noted := true;
      }
    }
    var tokens, cost := r.tokens, r.cost;
    for i := 0 to |group|
      invariant tokens == entry.tokens + SumOf(group[..i], Tokens())
      invariant cost == entry.cost + SumOf(group[..i], Cost())
    {
      assert group[..i + 1] == group[..i] + [group[i]];
      SumSnoc(group[..i], group[i], Tokens());
      SumSnoc(group[..i], group[i], Cost());
      if group[i].native {
        tokens := tokens + group[i].tokens;
        cost := cost + group[i].cost;
      }
    }
    assert group[..|group|] == group;
    r := r.(shareNoted := noted, tokens := tokens, cost := cost);
  }

  lemma EntryGrows(before: Attribution, r: Attribution, observations: seq<Observation>, front: seq<Call>, call: Call)
    requires EntryAfter(before, observations, front, call.skill)
    requires var group := Group(observations, call);
      && r.skill == before.skill && r.calls == before.calls + 1
      && r.excluded == before.excluded + |group| - 1
      && r.shareNoted == (before.shareNoted || AnyShared(group))
      && r.tokens == before.tokens + SumOf(group, Tokens()) && r.cost == before.cost + SumOf(group, Cost())
    ensures EntryAfter(r, observations, front + [call], call.skill)
  {
    UnitSum(Group(observations, call));
    SharedSum(Group(observations, call));
    CallsInSnoc(front, call, call.skill);
    SumOverSnoc(observations, front, call, call.skill, Unit());
    SumOverSnoc(observations, front, call, call.skill, Shared());
    SumOverSnoc(observations, front, call, call.skill, Tokens());
    SumOverSnoc(observations, front, call, call.skill, Cost());
  }

  lemma EntryStays(e: Attribution, observations: seq<Observation>, front: seq<Call>, call: Call, skill: string)
    requires EntryAfter(e, observations, front, skill) && call.skill != skill
    ensures EntryAfter(e, observations, front + [call], skill)
  {
    CallsInSnoc(front, call, skill);
    SumOverSnoc(observations, front, call, skill, Unit());
    SumOverSnoc(observations, front, call, skill, Shared());
    SumOverSnoc(observations, front, call, skill, Tokens());
    SumOverSnoc(observations, front, call, skill, Cost());
  }

  method AttributeSkillCost(observations: seq<Observation>) returns (bySkill: map<string, Attribution>)
    ensures forall skill :: skill in bySkill <==> Identities(observations, skill) != {}
    ensures forall skill :: skill in bySkill ==> bySkill[skill] == Expected(observations, skill)
  {
    var groups, listed := GroupObservations(observations);
    CallLeqIsOrder();
    var order := SortBy(listed, CallLeq);
    SortedCovers(observations, groups, listed, order);
    bySkill := FillEntries(observations, groups, order);
    FilledIsExpected(observations, order, bySkill);
  }

  /** The loop over the ordered calls. */
  method FillEntries(ghost observations: seq<Observation>, groups: map<Call, seq<Observation>>, order: seq<Call>)
      returns (bySkill: map<string, Attribution>)
    requires forall call :: call in order ==> call in groups && groups[call] == Group(observations, call) != []
    ensures Filled(observations, order, bySkill)
  {
    bySkill := map[];
    for i := 0 to |order|
      invariant Filled(observations, order[..i], bySkill)
    {
      var key := order[i];
      assert order[..i + 1] == order[..i] + [key] && key in order;
      var before := if key.skill in bySkill then bySkill[key.skill] else Attribution(key.skill, 0, 0, false, 0, 0);
      assert EntryAfter(before, observations, order[..i], key.skill) by {
        if key.skill !in bySkill { NoCallsNoSums(observations, order[..i], key.skill); }
      }
      var entry := AddCall(before, groups[key]);
      EntryGrows(before, entry, observations, order[..i], key);
      FilledGrows(observations, order[..i], key, bySkill, entry);
      bySkill := bySkill[key.skill := entry];
    }
    assert order[..|order|] == order;
  }

  lemma FilledIsExpected(observations: seq<Observation>, order: seq<Call>, bySkill: map<string, Attribution>)
    requires Covers(observations, order) && Filled(observations, order, bySkill)
    ensures forall skill :: skill in bySkill <==> Identities(observations, skill) != {}
    ensures forall skill :: skill in bySkill ==> bySkill[skill] == Expected(observations, skill)
  {
    forall skill ensures skill in bySkill <==> Identities(observations, skill) != {} {
      CallsAreIdentities(observations, order, skill);
    }
    forall skill | skill in bySkill ensures bySkill[skill] == Expected(observations, skill) {
      EntryIsExpected(bySkill[skill], observations, order, skill);
    }
  }

  /** The entries after a prefix of the ordered calls. */
  ghost predicate Filled(observations: seq<Observation>, order: seq<Call>, bySkill: map<string, Attribution>)
  {
    && (forall skill :: skill in bySkill <==> CallsIn(order, skill) > 0)
    && (forall skill :: skill in bySkill ==> EntryAfter(bySkill[skill], observations, order, skill))
  }

  lemma FilledGrows(observations: seq<Observation>, front: seq<Call>, call: Call, bySkill: map<string, Attribution>,
                    entry: Attribution)
    requires Filled(observations, front, bySkill)
    requires EntryAfter(entry, observations, front + [call], call.skill)
    ensures Filled(observations, front + [call], bySkill[call.skill := entry])
  {
    var after := bySkill[call.skill := entry];
    forall skill ensures skill in after <==> CallsIn(front + [call], skill) > 0 {
      CallsInSnoc(front, call, skill);
    }
    forall skill | skill in after ensures EntryAfter(after[skill], observations, front + [call], skill) {
      if skill != call.skill { EntryStays(bySkill[skill], observations, front, call, skill); }
    }
  }

  lemma NoCallsNoSums(observations: seq<Observation>, order: seq<Call>, skill: string)
    requires CallsIn(order, skill) == 0
    ensures EntryAfter(Attribution(skill, 0, 0, false, 0, 0), observations, order, skill)
  {
    NoCallsNoSum(observations, order, skill, Unit());
    NoCallsNoSum(observations, order, skill, Shared());
    NoCallsNoSum(observations, order, skill, Tokens());
    NoCallsNoSum(observations, order, skill, Cost());
  }

  lemma {:induction false} NoCallsNoSum(observations: seq<Observation>, order: seq<Call>, skill: string, w: Weight)
    requires CallsIn(order, skill) == 0
    ensures SumOver(observations, order, skill, w) == 0
  {
    if order != [] { NoCallsNoSum(observations, order[..|order| - 1], skill, w); }
  }

  lemma EntryIsExpected(e: Attribution, observations: seq<Observation>, order: seq<Call>, skill: string)
    requires Covers(observations, order) && EntryAfter(e, observations, order, skill)
    ensures e == Expected(observations, skill)
  {
    CallsAreIdentities(observations, order, skill);
    SumOverAllCalls(observations, order, skill, Unit());
    SumOverAllCalls(observations, order, skill, Shared());
    SumOverAllCalls(observations, order, skill, Tokens());
    SumOverAllCalls(observations, order, skill, Cost());
    UnitSum(SightingsOf(observations, skill));
    SharedSum(SightingsOf(observations, skill));
  }

  /** The order covers every observed call, each once. */
  ghost predicate Covers(observations: seq<Observation>, order: seq<Call>)
  {
    NoDuplicates(order) && forall call :: call in order <==> Group(observations, call) != []
  }

  lemma SortedCovers(observations: seq<Observation>, groups: map<Call, seq<Observation>>, listed: seq<Call>,
                     order: seq<Call>)
    requires Grouped(observations, groups, listed) && multiset(order) == multiset(listed)
    ensures Covers(observations, order)
    ensures forall call :: call in order ==> call in groups && groups[call] == Group(observations, call) != []
  {
    BagDecidesDuplicates(listed, order);
    forall call ensures call in order <==> call in listed {
      assert call in order <==> call in multiset(order);
      assert call in listed <==> call in multiset(listed);
    }
  }

  lemma {:induction false} GroupNonEmpty(observations: seq<Observation>, call: Call)
    ensures Group(observations, call) != [] <==> exists o :: o in observations && Valid(o) && CallOf(o) == call
  {
    if observations != [] {
      var n := |observations| - 1;
      var front, last := observations[..n], observations[n];
      GroupNonEmpty(front, call);
      assert observations == front + [last];
      SelectSnoc(front, last, OfCall(call));
      if OfCall(call)(last) { assert last in observations; }
    }
  }

  function IdentitiesIn(order: seq<Call>, skill: string): set<string>
  {
    set call | call in order && call.skill == skill :: call.identity
  }

  lemma IdentitiesInSnoc(front: seq<Call>, last: Call, skill: string)
    requires last !in front
    ensures IdentitiesIn(front + [last], skill) ==
      IdentitiesIn(front, skill) + if last.skill == skill then {last.identity} else {}
    ensures last.skill == skill ==> last.identity !in IdentitiesIn(front, skill)
  {
  }

  /** The calls of a skill in a duplicate-free order are as many as their identities. */
  lemma {:induction false} CallsInCounts(order: seq<Call>, skill: string)
    requires NoDuplicates(order)
    ensures CallsIn(order, skill) == |IdentitiesIn(order, skill)|
  {
    if order != [] {
      var n := |order| - 1;
      CallsInCounts(order[..n], skill);
      IdentitiesInSnoc(order[..n], order[n], skill);
      assert order == order[..n] + [order[n]];
    }
  }

  lemma CallsAreIdentities(observations: seq<Observation>, order: seq<Call>, skill: string)
    requires Covers(observations, order)
    ensures CallsIn(order, skill) == |Identities(observations, skill)|
  {
    forall call ensures call in order <==> exists o :: o in observations && Valid(o) && CallOf(o) == call {
      GroupNonEmpty(observations, call);
    }
    forall o | o in observations && Valid(o) && o.skill == skill ensures o.identity in IdentitiesIn(order, skill) {
      assert CallOf(o) in order;
    }
    assert IdentitiesIn(order, skill) == Identities(observations, skill);
    CallsInCounts(order, skill);
  }

  /** Adding one observation changes a sum over a duplicate-free order by that observation if
      its call is listed, and by nothing otherwise. */
  lemma {:induction false} SumOverGrows(observations: seq<Observation>, o: Observation, order: seq<Call>,
                                        skill: string, w: Weight)
    requires NoDuplicates(order)
    ensures SumOver(observations + [o], order, skill, w) ==
      SumOver(observations, order, skill, w) + if CallOf(o) in order && OfSkill(skill)(o) then w(o) else 0
  {
    if order != [] {
      var n := |order| - 1;
      var front, last := order[..n], order[n];
      assert order == front + [last];
      SumOverGrows(observations, o, front, skill, w);
      SelectSnoc(observations, o, OfCall(last));
      SumSnoc(Group(observations, last), o, w);
      SumOverSnoc(observations, front, last, skill, w);
      SumOverSnoc(observations + [o], front, last, skill, w);
      assert CallOf(o) == last ==> CallOf(o) !in front;
    }
  }

  lemma {:induction false} SumOverNothing(order: seq<Call>, skill: string, w: Weight)
    ensures SumOver([], order, skill, w) == 0
  {
    if order != [] {
      SumOverNothing(order[..|order| - 1], skill, w);
      assert SumOf(Group([], order[|order| - 1]), w) == 0;
    }
  }

  /** Over an order listing every call of the observations, summing by call is summing by skill. */
  lemma {:induction false} SumBySkill(observations: seq<Observation>, order: seq<Call>, skill: string, w: Weight)
    requires NoDuplicates(order) && forall o :: o in observations && Valid(o) ==> CallOf(o) in order
    ensures SumOver(observations, order, skill, w) == SumOf(SightingsOf(observations, skill), w)
  {
    if observations == [] {
      SumOverNothing(order, skill, w);
    } else {
      var n := |observations| - 1;
      var front, last := observations[..n], observations[n];
      assert observations == front + [last];
      SumBySkill(front, order, skill, w);
      SumOverGrows(front, last, order, skill, w);
      SelectSnoc(front, last, OfSkill(skill));
      SumSnoc(SightingsOf(front, skill), last, w);
    }
  }

  lemma SumOverAllCalls(observations: seq<Observation>, order: seq<Call>, skill: string, w: Weight)
    requires Covers(observations, order)
    ensures SumOver(observations, order, skill, w) == SumOf(SightingsOf(observations, skill), w)
  {
    forall o | o in observations && Valid(o) ensures CallOf(o) in order {
      GroupNonEmpty(observations, CallOf(o));
    }
    SumBySkill(observations, order, skill, w);
  }

  // ---------- what the attribution guarantees ----------

  /** Counted and excluded observations together are the valid observations of the skill: none
      is lost and none counted twice, and there are never fewer sightings than calls. */
  lemma Conservation(observations: seq<Observation>, skill: string)
    ensures var e := Expected(observations, skill);
      && e.calls + e.excluded == |SightingsOf(observations, skill)|
      && 0 <= e.excluded && (e.calls == 0 <==> SightingsOf(observations, skill) == [])
  {
    IdentitiesBounded(observations, skill);
  }

  lemma IdentitiesSnoc(front: seq<Observation>, last: Observation, skill: string)
    ensures Identities(front + [last], skill) ==
      Identities(front, skill) + if Valid(last) && last.skill == skill then {last.identity} else {}
  {
  }

  lemma {:induction false} IdentitiesBounded(observations: seq<Observation>, skill: string)
    ensures |Identities(observations, skill)| <= |SightingsOf(observations, skill)|
    ensures Identities(observations, skill) == {} <==> SightingsOf(observations, skill) == []
  {
    if observations != [] {
      var n := |observations| - 1;
      var front, last := observations[..n], observations[n];
      IdentitiesBounded(front, skill);
      IdentitiesSnoc(front, last, skill);
      SelectSnoc(front, last, OfSkill(skill));
      assert observations == front + [last];
    }
  }

  lemma {:induction false} SelectConcat(s: seq<Observation>, t: seq<Observation>, test: Observation -> bool)
    ensures Select(s + t, test) == Select(s, test) + Select(t, test)
  {
    if t == [] {
      assert s + t == s;
    } else {
      var n := |t| - 1;
      assert s + t == (s + t[..n]) + [t[n]];
      SelectConcat(s, t[..n], test);
      SelectSnoc(s + t[..n], t[n], test);
    }
  }

  /** Reordering observations reorders the selected ones. */
  lemma {:induction false} SelectPermuted(s: seq<Observation>, t: seq<Observation>, test: Observation -> bool)
    requires multiset(s) == multiset(t)
    ensures multiset(Select(s, test)) == multiset(Select(t, test))
  {
    SameLength(s, t);
    if s != [] {
      var n := |s| - 1;
      var i := Elsewhere(s, t);
      var before, after := t[..i], t[i + 1..];
      SelectPermuted(s[..n], before + after, test);
      assert t == (before + [t[i]]) + after;
      SelectConcat(before + [t[i]], after, test);
      SelectConcat(before, after, test);
      SelectSnoc(before, t[i], test);
    }
  }

  lemma {:induction false} SumPermuted(s: seq<Observation>, t: seq<Observation>, w: Weight)
    requires multiset(s) == multiset(t)
    ensures SumOf(s, w) == SumOf(t, w)
  {
    SameLength(s, t);
    if s != [] {
      var i := Elsewhere(s, t);
      var before, after := t[..i], t[i + 1..];
      SumPermuted(s[..|s| - 1], before + after, w);
      assert t == (before + [t[i]]) + after;
      SumConcat(before + [t[i]], after, w);
      SumConcat(before, after, w);
      SumSnoc(before, t[i], w);
    }
  }

  /** The order observations arrive in changes nothing. */
  lemma AttributionIgnoresOrder(s: seq<Observation>, t: seq<Observation>, skill: string)
    requires multiset(s) == multiset(t)
    ensures Expected(s, skill) == Expected(t, skill)
  {
    SelectPermuted(s, t, OfSkill(skill));
    SameLength(SightingsOf(s, skill), SightingsOf(t, skill));
    SumPermuted(SightingsOf(s, skill), SightingsOf(t, skill), Tokens());
    SumPermuted(SightingsOf(s, skill), SightingsOf(t, skill), Cost());
    SameMembers(SightingsOf(s, skill), SightingsOf(t, skill));
    SameMembers(s, t);
    assert Identities(s, skill) == Identities(t, skill);
  }

  /** Seeing a known call again without native semantics, anywhere in the stream, adds one
      excluded observation and changes neither the count nor the totals. */
  lemma ResightingAddsNothing(before: seq<Observation>, after: seq<Observation>, again: Observation, skill: string)
    requires Valid(again) && !again.native && again.skill == skill
    requires again.identity in Identities(before + after, skill)
    ensures var e, f := Expected(before + after, skill), Expected(before + [again] + after, skill);
      f == e.(excluded := e.excluded + 1, shareNoted := e.shareNoted || again.concurrentShare)
  {
    assert multiset(before + [again] + after) == multiset(before + after + [again]);
    AttributionIgnoresOrder(before + [again] + after, before + after + [again], skill);
    ResightingLast(before + after, again, skill);
  }

  lemma ResightingLast(once: seq<Observation>, again: Observation, skill: string)
    requires Valid(again) && !again.native && again.skill == skill
    requires again.identity in Identities(once, skill)
    ensures var e, f := Expected(once, skill), Expected(once + [again], skill);
      f == e.(excluded := e.excluded + 1, shareNoted := e.shareNoted || again.concurrentShare)
  {
    hide Select, SumOf, Identities, AnyShared;
    SelectSnoc(once, again, OfSkill(skill));
    SumSnoc(SightingsOf(once, skill), again, Tokens());
    SumSnoc(SightingsOf(once, skill), again, Cost());
    IdentitiesSnoc(once, again, skill);
    AnySharedSnoc(SightingsOf(once, skill), again);
    assert Identities(once, skill) + {again.identity} == Identities(once, skill);
  }

  lemma AnySharedSnoc(front: seq<Observation>, last: Observation)
    ensures AnyShared(front + [last]) == (AnyShared(front) || last.concurrentShare)
  {
    assert last in front + [last];
  }

  // ---------- one observation at a time ----------

  /** A sighting of the call is among the observations. */
  predicate Known(observations: seq<Observation>, skill: string, identity: string)
  {
    exists o :: o in observations && o.skill == skill && o.identity == identity
  }

  /** Nothing is attributed to a skill nobody observed. */
  lemma NothingObserved(skill: string)
    ensures Expected([], skill) == Attribution(skill, 0, 0, false, 0, 0)
  {
    assert Identities([], skill) == {};
  }

  /** What one more observation changes: nothing if it is another skill's or names no skill or call; else a
      native one brings its own tokens and its own cost, and it counts as a call when its call is new and
      as excluded when it is not. */
  lemma NextObservation(front: seq<Observation>, o: Observation, skill: string)
    ensures var e, f := Expected(front, skill), Expected(front + [o], skill);
      if o.skill == skill && skill != "" && o.identity != "" then
        && f.skill == skill
        && f.tokens == e.tokens + (if o.native then o.tokens else 0)
        && f.cost == e.cost + (if o.native then o.cost else 0)
        && f.calls == e.calls + (if Known(front, skill, o.identity) then 0 else 1)
        && f.excluded == e.excluded + (if Known(front, skill, o.identity) then 1 else 0)
        && f.shareNoted == (e.shareNoted || o.concurrentShare)
      else f == e
  {
    hide SumOf, Select, Identities, AnyShared, Known, Tokens, Cost;
    SelectSnoc(front, o, OfSkill(skill));
    CallsGrow(front, o, skill);
    var before := SightingsOf(front, skill);
    if Valid(o) && o.skill == skill {
      FiguresGrow(before, o);
    } else {
      assert before + [] == before;
    }
  }

  lemma CallsGrow(front: seq<Observation>, o: Observation, skill: string)
    ensures |Identities(front + [o], skill)| == |Identities(front, skill)|
      + if Valid(o) && o.skill == skill && !Known(front, skill, o.identity) then 1 else 0
  {
    IdentitiesSnoc(front, o, skill);
    var known := Identities(front, skill);
    if Valid(o) && o.skill == skill {
      assert o.identity in known <==> Known(front, skill, o.identity);
      assert o.identity in known ==> known + {o.identity} == known;
    }
  }

  lemma FiguresGrow(sightings: seq<Observation>, o: Observation)
    ensures SumOf(sightings + [o], Tokens()) == SumOf(sightings, Tokens()) + if o.native then o.tokens else 0
    ensures SumOf(sightings + [o], Cost()) == SumOf(sightings, Cost()) + if o.native then o.cost else 0
    ensures AnyShared(sightings + [o]) == (AnyShared(sightings) || o.concurrentShare)
  {
    hide SumOf;
    SumSnoc(sightings, o, Tokens());
    SumSnoc(sightings, o, Cost());
    assert forall x :: x in sightings + [o] <==> x in sightings || x == o;
  }

  // ---------- once per call ----------

  predicate NativeCall(observations: seq<Observation>, skill: string, identity: string)
  {
    exists o :: o in observations && Valid(o) && o.skill == skill && o.identity == identity && o.native
  }

  /** A figure counted once per call: that of its first native sighting. */
  function OncePerCall(observations: seq<Observation>, skill: string, w: Weight): int
  {
    if observations == [] then 0
    else
      var front, o := observations[..|observations| - 1], observations[|observations| - 1];
      OncePerCall(front, skill, w) + (if FirstNative(front, o, skill) then w(o) else 0)
  }

  predicate NativeSighting(o: Observation, skill: string)
  {
    Valid(o) && o.skill == skill && o.native
  }

  predicate FirstNative(front: seq<Observation>, o: Observation, skill: string)
  {
    NativeSighting(o, skill) && !NativeCall(front, skill, o.identity)
  }

  /** No native sighting of a call but its first brings anything. */
  ghost predicate RepeatsBringNothing(observations: seq<Observation>, skill: string, w: Weight)
  {
    forall i, j :: 0 <= i < j < |observations| && BothNative(observations[i], observations[j], skill) ==>
      w(observations[j]) == 0
  }

  /** Two native sightings of one call. */
  predicate BothNative(o: Observation, p: Observation, skill: string)
  {
    NativeSighting(o, skill) && NativeSighting(p, skill) && CallOf(o) == CallOf(p)
  }

  /** Tokens and cost of non-negative observations are counted once per call if and only if no native
      sighting after a call's first brings any: several native sightings of one call are all added up. */
  lemma CountedOnceIff(observations: seq<Observation>, skill: string)
    requires forall o :: o in observations && o.native ==> o.tokens >= 0 && o.cost >= 0
    ensures var e := Expected(observations, skill);
      && e.tokens >= OncePerCall(observations, skill, Tokens())
      && (e.tokens == OncePerCall(observations, skill, Tokens()) <==>
          RepeatsBringNothing(observations, skill, Tokens()))
      && e.cost >= OncePerCall(observations, skill, Cost())
      && (e.cost == OncePerCall(observations, skill, Cost()) <==> RepeatsBringNothing(observations, skill, Cost()))
  {
    SumOnceIff(observations, skill, Tokens());
    SumOnceIff(observations, skill, Cost());
  }

  lemma {:induction false} SumOnceIff(observations: seq<Observation>, skill: string, w: Weight)
    requires forall o :: o in observations ==> w(o) >= 0 && (o.native || w(o) == 0)
    ensures var sum, once := SumOf(SightingsOf(observations, skill), w), OncePerCall(observations, skill, w);
      sum >= once && (sum == once <==> RepeatsBringNothing(observations, skill, w))
  {
    hide RepeatsBringNothing, FirstNative;
    if observations == [] {
      NoRepeats(observations, skill, w);
    } else {
      var n := |observations| - 1;
      var front, last := observations[..n], observations[n];
      assert observations == front + [last] && last in observations;
      SumOnceIff(front, skill, w);
      SelectSnoc(front, last, OfSkill(skill));
      SumSnoc(SightingsOf(front, skill), last, w);
      OneMoreSighting(front, last, skill, w);
    }
  }

  lemma NoRepeats(none: seq<Observation>, skill: string, w: Weight)
    requires none == []
    ensures RepeatsBringNothing(none, skill, w)
  {
  }

  lemma OneMoreSighting(front: seq<Observation>, last: Observation, skill: string, w: Weight)
    ensures FirstNative(front, last, skill) ==> NativeSighting(last, skill)
    ensures RepeatsBringNothing(front + [last], skill, w) <==>
      && RepeatsBringNothing(front, skill, w)
      && (NativeSighting(last, skill) && !FirstNative(front, last, skill) ==> w(last) == 0)
  {
    var all, n := front + [last], |front|;
    assert forall i :: 0 <= i < n ==> all[i] == front[i];
    if RepeatsBringNothing(all, skill, w) && NativeSighting(last, skill) && !FirstNative(front, last, skill) {
      var o :| o in front && Valid(o) && o.skill == skill && o.identity == last.identity && o.native;
      var i :| 0 <= i < n && front[i] == o;
      assert all[i] == o && all[n] == last;
    }
    if RepeatsBringNothing(front, skill, w) &&
       (NativeSighting(last, skill) && !FirstNative(front, last, skill) ==> w(last) == 0)
    {
      forall i, j | 0 <= i < j < |all| && BothNative(all[i], all[j], skill) ensures w(all[j]) == 0 {
        assert front[i] == all[i] && front[i] in front;
      }
    }
  }

  /** Two native sightings of one call with a token each: one call, two tokens. */
  lemma TwoNativeSightings()
    ensures var o := Observation("id", "source", "skill", 1, 0, true, false);
      var e := Expected([o, o], "skill");
      e.calls == 1 && e.tokens == 2 && OncePerCall([o, o], "skill", Tokens()) == 1
  {
    var o := Observation("id", "source", "skill", 1, 0, true, false);
    assert [o, o][..1] == [o] && [o][..0] == [];
    assert Select([o], OfSkill("skill")) == [o] && SightingsOf([o, o], "skill") == [o, o];
    assert SumOf([o], Tokens()) == 1;
    assert Identities([o, o], "skill") == {"id"};
    assert OncePerCall([o], "skill", Tokens()) == 1;
    assert o in [o];
  }
}
