/** Which number an answerable case is given, and which error or state any other case, said of the
    records' own fields. */
module FormulaMeaning {
  import opened Ordering
  import opened Percentile
  import opened FormulaEvaluation

  // ---------- the counted records ----------

  /** Truth of a field as the source takes it: absent, null, false, zero and empty are false. */
  predicate Holds(r: Record, field: string)
  {
    field in r && r[field] !in {VNull, VBool(false), VInt(0), VFloat(0.0), VString(""), VCompound(false)}
  }

  predicate Excluded(r: Record)
  {
    "exclusion_code" in r && r["exclusion_code"] != VNull
  }

  /** Eligible, in the interval, and not excluded. */
  predicate Counted(r: Record)
  {
    Holds(r, "eligible") && Holds(r, "in_interval") && !Excluded(r)
  }

  predicate ExcludedBy(r: Record, codes: seq<string>)
  {
    Excluded(r) && r["exclusion_code"].VString? && r["exclusion_code"].text in codes
  }

  predicate IsComplete(r: Record)
  {
    "completeness_state" in r && r["completeness_state"] == VString("complete")
  }

  predicate Identified(r: Record, key: string)
  {
    key in r && (r[key].VString? || r[key].VInt?)
  }

  lemma FieldsMean(r: Record, codes: seq<string>, key: string)
    ensures InPopulation(r) <==> Counted(r)
    ensures Unauthorized(r, codes) <==> Excluded(r) && !ExcludedBy(r, codes)
    ensures Incomplete(r) <==> !IsComplete(r)
    ensures HasIdentity(r, key) <==> Identified(r, key)
  {
  }

  /** Record i is the first counted one with its identity. */
  predicate FirstAt(records: seq<Record>, key: string, i: nat)
    requires i < |records|
  {
    Counted(records[i])
    && forall j :: 0 <= j < i && Counted(records[j]) ==> Get(records[j], key) != Get(records[i], key)
  }

  /** One record per identity, the first. */
  function Firsts(records: seq<Record>, key: string): seq<Record>
  {
    if records == [] then []
    else
      var n := |records| - 1;
      Firsts(records[..n], key) + (if FirstAt(records, key, n) then [records[n]] else [])
  }

  lemma FirstAtPrefix(records: seq<Record>, key: string, i: nat, n: nat)
    requires i < n <= |records|
    ensures FirstAt(records[..n], key, i) <==> FirstAt(records, key, i)
  {
  }

  lemma {:induction false} FirstsMember(records: seq<Record>, key: string, r: Record)
    ensures r in Firsts(records, key) <==> exists i :: 0 <= i < |records| && records[i] == r && FirstAt(records, key, i)
  {
    hide FirstAt;
    if records != [] {
      var n := |records| - 1;
      FirstsMember(records[..n], key, r);
      forall i | 0 <= i < n ensures FirstAt(records[..n], key, i) <==> FirstAt(records, key, i) {
        FirstAtPrefix(records, key, i, n);
      }
      if i :| 0 <= i < n && records[..n][i] == r && FirstAt(records[..n], key, i) { assert records[i] == r; }
    }
  }

  lemma {:induction false} FirstsAreDeduplicated(records: seq<Record>, key: string)
    ensures Firsts(records, key) == Deduplicated(Included(records), key)
  {
    hide Counted, InPopulation, Deduplicated;
    if records == [] {
      NothingDeduplicated(key);
    } else {
      var n := |records| - 1;
      var front, last := records[..n], records[n];
      FirstsAreDeduplicated(front, key);
      FieldsMean(last, [], key);
      assert records == front + [last];
      assert Included(records) == Included(front) + (if Counted(last) then [last] else []);
      if Counted(last) {
        DeduplicatedSnoc(Included(front), last, key);
        FirstMeans(front, last, key);
      } else {
        assert Included(front) + [] == Included(front);
      }
    }
  }

  lemma NothingDeduplicated(key: string)
    ensures Deduplicated(Included([]), key) == []
  {
  }

  lemma DeduplicatedSnoc(front: seq<Record>, last: Record, key: string)
    ensures Deduplicated(front + [last], key) ==
      Deduplicated(front, key) + (if Get(last, key) in Identities(front, key) then [] else [last])
  {
    assert (front + [last])[..|front|] == front;
  }

  lemma FirstMeans(front: seq<Record>, last: Record, key: string)
    requires Counted(last)
    ensures FirstAt(front + [last], key, |front|) <==> Get(last, key) !in Identities(Included(front), key)
  {
    hide Counted, InPopulation, Included;
    var records, n := front + [last], |front|;
    forall r ensures r in Included(front) <==> r in front && Counted(r) {
      IncludedMember(front, r);
      FieldsMean(r, [], key);
    }
    if Get(last, key) in Identities(Included(front), key) {
      var r :| r in Included(front) && Get(r, key) == Get(last, key);
      var j :| 0 <= j < n && front[j] == r;
      assert records[j] == r;
    }
    if j :| 0 <= j < n && Counted(records[j]) && Get(records[j], key) == Get(last, key) {
      assert front[j] == records[j] && front[j] in front;
    }
  }

  /** The distinct identities of the counted records. */
  function IdentitiesOf(records: seq<Record>, key: string): set<Value>
  {
    set r | r in records && Counted(r) :: Get(r, key)
  }

  lemma {:induction false} FirstsCount(records: seq<Record>, key: string)
    ensures |Firsts(records, key)| == |IdentitiesOf(records, key)|
  {
    hide Counted;
    if records != [] {
      var n := |records| - 1;
      FirstsCount(records[..n], key);
      IdentitiesGrow(records[..n], records[n], key);
      assert records == records[..n] + [records[n]];
    }
  }

  lemma IdentitiesGrow(front: seq<Record>, last: Record, key: string)
    ensures IdentitiesOf(front + [last], key) ==
      IdentitiesOf(front, key) + if Counted(last) then {Get(last, key)} else {}
    ensures FirstAt(front + [last], key, |front|) <==> Counted(last) && Get(last, key) !in IdentitiesOf(front, key)
  {
    hide Counted;
    var records := front + [last];
    assert forall r :: r in records <==> r in front || r == last;
    if Get(last, key) in IdentitiesOf(front, key) {
      var r :| r in front && Counted(r) && Get(r, key) == Get(last, key);
      var j :| 0 <= j < |front| && front[j] == r;
      assert records[j] == r;
    }
    if Counted(last) && !FirstAt(records, key, |front|) {
      var j :| 0 <= j < |front| && Counted(records[j]) && Get(records[j], key) == Get(last, key);
      assert front[j] == records[j] && front[j] in front;
    }
  }

  // ---------- numbers ----------

  predicate HasNumber(r: Record, field: string)
  {
    field in r && (r[field].VInt? || r[field].VFloat?)
  }

  function NumberIn(r: Record, field: string): real
  {
    if HasNumber(r, field) then (if r[field].VInt? then r[field].i as real else r[field].r) else 0.0
  }

  function NumbersIn(records: seq<Record>, field: string): seq<real>
  {
    seq(|records|, (i: nat) requires i < |records| => NumberIn(records[i], field))
  }

  /** The sum, from the first to the last. */
  function SumFrom(numbers: seq<real>): real
  {
    if numbers == [] then 0.0 else numbers[0] + SumFrom(numbers[1..])
  }

  lemma {:induction false} SumFromSnoc(front: seq<real>, last: real)
    ensures SumFrom(front + [last]) == SumFrom(front) + last
  {
    if front == [] {
      assert front + [last] == [last];
    } else {
      assert (front + [last])[1..] == front[1..] + [last];
      SumFromSnoc(front[1..], last);
    }
  }

  lemma {:induction false} TotalIsSum(numbers: seq<real>)
    ensures FormulaEvaluation.Total(numbers) == SumFrom(numbers)
  {
    if numbers != [] {
      var n := |numbers| - 1;
      TotalIsSum(numbers[..n]);
      SumFromSnoc(numbers[..n], numbers[n]);
      assert numbers == numbers[..n] + [numbers[n]];
    }
  }

  lemma ColumnMeans(records: seq<Record>, field: string)
    requires FieldNumeric(records, field)
    ensures Column(records, field) == NumbersIn(records, field)
    ensures FormulaEvaluation.Total(Column(records, field)) == SumFrom(NumbersIn(records, field))
    ensures forall i :: 0 <= i < |records| ==> HasNumber(records[i], field)
  {
    forall i | 0 <= i < |records|
      ensures HasNumber(records[i], field) && Column(records, field)[i] == NumberIn(records[i], field)
    {
      NumericMeans(records[i], field);
    }
    assert Column(records, field) == NumbersIn(records, field);
    TotalIsSum(Column(records, field));
  }

  lemma NumericMeans(r: Record, field: string)
    ensures Numeric(Get(r, field)) <==> HasNumber(r, field)
    ensures Numeric(Get(r, field)) ==> Number(Get(r, field)) == NumberIn(r, field)
  {
  }

  /** The fields a calculation reads. */
  function FieldsRead(calculation: Calculation): set<string>
  {
    match calculation
    case Count => {}
    case Ratio => {"numerator", "denominator"}
    case Latest => {"value", "observed_order"}
    case _ => {"value"}
  }

  predicate Numbered(records: seq<Record>, calculation: Calculation)
  {
    forall r, field :: r in records && field in FieldsRead(calculation) ==> HasNumber(r, field)
  }

  lemma NumberedMeans(records: seq<Record>, calculation: Calculation)
    ensures AllNumeric(records, NumericFields(Registered(calculation))) <==> Numbered(records, calculation)
  {
    hide HasNumber, Get, Numeric;
    var fields := NumericFields(Registered(calculation));
    forall f ensures f in fields <==> f in FieldsRead(calculation) {
      assert "value" in ["value"] && "numerator" in ["numerator", "denominator"]
        && "denominator" in ["numerator", "denominator"];
      assert "value" in ["value", "observed_order"] && "observed_order" in ["value", "observed_order"];
    }
    forall r, f ensures Numeric(Get(r, f)) <==> HasNumber(r, f) { NumericMeans(r, f); }
  }

  /** The fields read are the ones the registered parameters name; probability, method, order and what a zero
      denominator comes to are named as well. */
  lemma ParametersNameFields(calculation: Calculation)
    ensures var p := RegisteredParameters(calculation);
      match calculation
      case Count => p == map["distinct_field" := VString("record_id")]
      case Ratio =>
        && p["numerator_field"] == VString("numerator") && p["denominator_field"] == VString("denominator")
        && p["zero_denominator_state"] == VString("unknown") && |p| == 3
      case Latest =>
        && p["value_field"] == VString("value") && p["order_field"] == VString("observed_order")
        && p["direction"] == VString("ascending") && |p| == 3
      case P95 =>
        && p["value_field"] == VString("value") && p["probability"] == VFloat(0.95)
        && p["method"] == VString("percentile_cont") && p["null_policy"] == VString("explicit_exclusion_only")
        && |p| == 4
      case _ => p == map["value_field" := VString("value")]
  {
    var a, b, c, d := "numerator_field", "denominator_field", "zero_denominator_state", "value_field";
    assert a[0] == 'n' && b[0] == 'd' && c[0] == 'z' && d[0] == 'v';
    assert "order_field"[0] == 'o' && "direction"[0] == 'd' && "probability"[0] == 'p' && "method"[0] == 'm'
      && "null_policy"[0] == 'n';
  }

  // ---------- the answer ----------

  /** The value is what the calculation says of the records, one per identity. */
  ghost predicate Answers(calculation: Calculation, records: seq<Record>, v: real)
  {
    match calculation
    case Count => v == |records| as real
    case Sum => v == SumFrom(NumbersIn(records, "value"))
    case Duration => v == SumFrom(NumbersIn(records, "value"))
    case Mean => v * (|records| as real) == SumFrom(NumbersIn(records, "value"))
    case Ratio =>
      && v * SumFrom(NumbersIn(records, "denominator")) == SumFrom(NumbersIn(records, "numerator"))
      && SumFrom(NumbersIn(records, "denominator")) != 0.0
    case Max => IsLargest(NumbersIn(records, "value"), v)
    case Latest => LatestIs(records, v)
    case P95 =>
      exists k: nat, f ::
        k as real + f == (|records| - 1) as real * 0.95 && Interpolates(NumbersIn(records, "value"), k, f, v)
  }

  predicate IsLargest(numbers: seq<real>, v: real)
  {
    v in numbers && forall x :: x in numbers ==> x <= v
  }

  predicate FirstLargest(numbers: seq<real>, i: int)
  {
    && 0 <= i < |numbers| && (forall j :: 0 <= j < |numbers| ==> numbers[j] <= numbers[i])
    && forall j :: 0 <= j < i ==> numbers[j] < numbers[i]
  }

  /** The value of the first record that no other is observed later than. */
  ghost predicate LatestIs(records: seq<Record>, v: real)
  {
    exists i :: FirstLargest(NumbersIn(records, "observed_order"), i) && v == NumberIn(records[i], "value")
  }

  lemma ComputedAnswers(calculation: Calculation, records: seq<Record>, v: real)
    requires records != []
    requires forall k :: 0 <= k < |NumericFields(Registered(calculation))| ==>
      FieldNumeric(records, NumericFields(Registered(calculation))[k])
    requires Compute(Registered(calculation), records) == Some(v)
    ensures Answers(calculation, records, v)
  {
    hide NumbersIn, NumberIn, HasNumber, FieldNumeric, SumFrom, FormulaEvaluation.Total, Interpolates;
    hide IsLargest, LatestIs, PercentileCont, Column;
    var fields := NumericFields(Registered(calculation));
    match calculation {
      case Count =>
      case Sum => assert fields[0] == "value"; ColumnMeans(records, "value");
      case Duration => assert fields[0] == "value"; ColumnMeans(records, "value");
      case Mean =>
        assert fields[0] == "value";
        ColumnMeans(records, "value");
        Quotient(v, SumFrom(NumbersIn(records, "value")), |records| as real);
      case Max => assert fields[0] == "value"; MaxAnswers(records, v);
      case P95 => assert fields[0] == "value"; P95Answers(records, v);
      case Latest => assert fields[0] == "value" && fields[1] == "observed_order"; LatestAnswers(records, v);
      case Ratio =>
        assert fields[0] == "numerator" && fields[1] == "denominator";
        ColumnMeans(records, "numerator");
        ColumnMeans(records, "denominator");
        Quotient(v, SumFrom(NumbersIn(records, "numerator")), SumFrom(NumbersIn(records, "denominator")));
    }
  }

  lemma Quotient(v: real, x: real, y: real)
    ensures y != 0.0 && v == x / y ==> v * y == x
  {
  }

  lemma MaxAnswers(records: seq<Record>, v: real)
    requires records != [] && FieldNumeric(records, "value")
    requires v == Column(records, "value")[FirstMax(Column(records, "value"))]
    ensures IsLargest(NumbersIn(records, "value"), v)
  {
    ColumnMeans(records, "value");
  }

  lemma LatestAnswers(records: seq<Record>, v: real)
    requires records != [] && FieldNumeric(records, "value") && FieldNumeric(records, "observed_order")
    requires v == Column(records, "value")[FirstMax(Column(records, "observed_order"))]
    ensures LatestIs(records, v)
  {
    ColumnMeans(records, "value");
    ColumnMeans(records, "observed_order");
    var i := FirstMax(Column(records, "observed_order"));
    assert FirstLargest(NumbersIn(records, "observed_order"), i) && v == NumbersIn(records, "value")[i];
  }

  lemma P95Answers(records: seq<Record>, v: real)
    requires records != [] && FieldNumeric(records, "value")
    requires PercentileCont(Column(records, "value"), 0.95) == Some(v)
    ensures exists k: nat, f ::
      k as real + f == (|records| - 1) as real * 0.95 && Interpolates(NumbersIn(records, "value"), k, f, v)
  {
    ColumnMeans(records, "value");
    var k, f := PercentileInterpolates(Column(records, "value"), 0.95);
  }

  /** The number an answerable case is given: a count of the distinct identities, and everything else
      over the first record of each. */
  lemma AnswerMeans(c: Case)
    requires Evaluate(c).value.Some?
    ensures c.records.Some? && c.dedupeKey.Some? && c.calculation.Some?
    ensures Answers(c.calculation.value, Firsts(c.records.value, c.dedupeKey.value), Evaluate(c).value.value)
    ensures c.calculation == Some(Calculation.Count) ==>
      Evaluate(c).value.value == |IdentitiesOf(c.records.value, c.dedupeKey.value)| as real
  {
    hide Answers, Compute, Included, Deduplicated, EvaluatorAccepted, Countable, AllNumeric;
    CountableReachesPopulation(c);
    CaseShape(c);
    var key, records := c.dedupeKey.value, c.records.value;
    var population := Deduplicated(Included(records), key);
    FirstsAreDeduplicated(records, key);
    FirstsCount(records, key);
    PopulationAnswers(c, population);
    if c.calculation.value == Calculation.Count { CountAnswers(population, Evaluate(c).value.value); }
  }

  lemma CountAnswers(records: seq<Record>, v: real)
    requires Answers(Calculation.Count, records, v)
    ensures v == |records| as real
  {
  }

  lemma CaseShape(c: Case)
    ensures Evaluate(c).value.Some? ==> Countable(c) && c.records.Some? && c.dedupeKey.Some? && c.calculation.Some?
  {
    hide Included, Deduplicated;
    CountableReachesPopulation(c);
  }

  lemma PopulationAnswers(c: Case, population: seq<Record>)
    requires EvaluatePopulation(c, population).value.Some? && c.calculation.Some?
    ensures Answers(c.calculation.value, population, EvaluatePopulation(c, population).value.value)
  {
    hide Answers, Compute;
    NumericColumns(population, NumericFields(Registered(c.calculation.value)));
    ComputedAnswers(c.calculation.value, population, EvaluatePopulation(c, population).value.value);
  }

  // ---------- every other case ----------

  /** The records may be counted: no unauthorised exclusion, and every counted record complete and
      identified. */
  ghost predicate Usable(c: Case)
  {
    && c.authorized.Some? && c.records.Some? && c.dedupeKey.Some?
    && (forall r :: r in c.records.value && Excluded(r) ==> ExcludedBy(r, c.authorized.value))
    && forall r :: r in c.records.value && Counted(r) ==> IsComplete(r) && Identified(r, c.dedupeKey.value)
  }

  lemma UsableMeans(c: Case)
    ensures Countable(c) <==> Usable(c)
  {
    hide InPopulation, Counted, Unauthorized, Excluded, ExcludedBy, Incomplete, IsComplete, HasIdentity, Identified;
    if c.authorized.Some? && c.records.Some? && c.dedupeKey.Some? {
      forall r
        ensures InPopulation(r) <==> Counted(r)
        ensures Unauthorized(r, c.authorized.value) <==> Excluded(r) && !ExcludedBy(r, c.authorized.value)
        ensures Incomplete(r) <==> !IsComplete(r)
        ensures HasIdentity(r, c.dedupeKey.value) <==> Identified(r, c.dedupeKey.value)
      {
        FieldsMean(r, c.authorized.value, c.dedupeKey.value);
      }
    }
  }

  predicate ProperParts(r: Record)
  {
    0.0 <= NumberIn(r, "numerator") <= NumberIn(r, "denominator")
  }

  /** What a usable case with an accepted evaluator comes to, given one record per identity. */
  ghost predicate Outcome(c: Case, records: seq<Record>, e: Evaluation)
    requires c.calculation.Some?
  {
    if records == [] then
      e == Evaluation(None, if c.intervalComplete then NotObserved else Unknown, None)
    else if !Numbered(records, c.calculation.value) then e == Evaluation(None, Unknown, Some(InvalidRecord))
    else if c.calculation.value == Ratio && exists r :: r in records && !ProperParts(r) then
      e == Evaluation(None, Unknown, Some(InvalidRatioRecord))
    else if c.calculation.value == Ratio && SumFrom(NumbersIn(records, "denominator")) == 0.0 then
      e == Evaluation(None, Unknown, None)
    else
      && e.error.None? && e.value.Some? && Answers(c.calculation.value, records, e.value.value)
      && e.state == if e.value.value == 0.0 then NumericZero else Complete
  }

  lemma OutcomeMeans(c: Case, records: seq<Record>)
    requires EvaluatorAccepted(c.evaluator, c.calculation)
    ensures Outcome(c, records, EvaluatePopulation(c, records))
  {
    hide Answers, NumberIn, NumbersIn, SumFrom, FormulaEvaluation.Total, FieldNumeric, Numeric, Get, Numbered;
    hide AllNumeric;
    var calculation := c.calculation.value;
    var fields := NumericFields(Registered(calculation));
    NumberedMeans(records, calculation);
    if records != [] && Numbered(records, calculation) {
      NumericColumns(records, fields);
      if calculation == Ratio {
        assert fields[0] == "numerator" && fields[1] == "denominator";
        ColumnMeans(records, "denominator");
        ProperMeans(records);
      }
      if EvaluatePopulation(c, records).value.Some? { PopulationAnswers(c, records); }
    }
  }

  lemma ProperMeans(records: seq<Record>)
    requires Numbered(records, Ratio)
    ensures AllProper(records) <==> forall r :: r in records ==> ProperParts(r)
  {
    forall r | r in records
      ensures Numeric(Get(r, "numerator")) && Numeric(Get(r, "denominator")) && (ProperRatio(r) <==> ProperParts(r))
    {
      assert "numerator" in FieldsRead(Ratio) && "denominator" in FieldsRead(Ratio);
      NumericMeans(r, "numerator");
      NumericMeans(r, "denominator");
    }
  }

  /** The whole evaluation: which errors come first, when a case is unknown or not observed, and
      otherwise which number it is given. */
  lemma EvaluationMeans(c: Case)
    ensures var e := Evaluate(c);
      if c.authorized.None? then e == Evaluation(None, Unknown, Some(InvalidPolicy))
      else if c.records.None? then e == Evaluation(None, Unknown, Some(InvalidRecord))
      else if exists r :: r in c.records.value && Excluded(r) && !ExcludedBy(r, c.authorized.value) then
        e == Evaluation(None, Unknown, Some(UnauthorizedExclusion))
      else if exists r :: r in c.records.value && Counted(r) && !IsComplete(r) then e == Evaluation(None, Unknown, None)
      else if !Usable(c) then e == Evaluation(None, Unknown, Some(InvalidRecord))
      else if !EvaluatorAccepted(c.evaluator, c.calculation) then e == Evaluation(None, Unknown, Some(InvalidEvaluator))
      else Outcome(c, Firsts(c.records.value, c.dedupeKey.value), e)
  {
    hide Included, Deduplicated, EvaluatePopulation, EvaluatorAccepted, Outcome, InPopulation, Counted, Unauthorized;
    hide Excluded, ExcludedBy, Incomplete, IsComplete, HasIdentity, Identified, Get;
    if c.authorized.Some? && c.records.Some? {
      var key := if c.dedupeKey.Some? then c.dedupeKey.value else "";
      forall r
        ensures InPopulation(r) <==> Counted(r)
        ensures Unauthorized(r, c.authorized.value) <==> Excluded(r) && !ExcludedBy(r, c.authorized.value)
        ensures Incomplete(r) <==> !IsComplete(r)
        ensures HasIdentity(r, key) <==> Identified(r, key)
      {
        FieldsMean(r, c.authorized.value, key);
      }
      IncludedExactly(c.records.value);
      FirstsAreDeduplicated(c.records.value, key);
      if Usable(c) && EvaluatorAccepted(c.evaluator, c.calculation) { OutcomeMeans(c, Firsts(c.records.value, key)); }
      if Usable(c) && !EvaluatorAccepted(c.evaluator, c.calculation) {
        RefusedEvaluator(c, Firsts(c.records.value, key));
      }
    }
  }

  lemma RefusedEvaluator(c: Case, records: seq<Record>)
    requires !EvaluatorAccepted(c.evaluator, c.calculation)
    ensures EvaluatePopulation(c, records) == Evaluation(None, Unknown, Some(InvalidEvaluator))
  {
  }
}
