/** evaluate_formula_case (scripts/validate_contracts.py): deduplicated metric evaluation in
    which "unknown", "not observed" and "zero" are three different answers.

    Numbers are exact reals. A list or mapping inside a record is reduced to whether it is empty. */
module FormulaEvaluation {
  import opened Ordering
  import opened Percentile

  datatype Value =
    | VNull
    | VBool(b: bool)
    | VInt(i: int)
    | VFloat(r: real)
    | VString(text: string)
    | VCompound(nonEmpty: bool)

  type Record = map<string, Value>

  function Get(record: Record, field: string): Value
  {
    if field in record then record[field] else VNull
  }

  predicate Truthy(v: Value)
  {
    match v
    case VNull => false
    case VBool(b) => b
    case VInt(i) => i != 0
    case VFloat(r) => r != 0.0
    case VString(text) => text != ""
    case VCompound(nonEmpty) => nonEmpty
  }

  predicate Numeric(v: Value)
  {
    v.VInt? || v.VFloat?
  }

  function Number(v: Value): real
    requires Numeric(v)
  {
    if v.VInt? then v.i as real else v.r
  }

  datatype Calculation = Count | Sum | Duration | Ratio | P95 | Mean | Latest | Max

  datatype Implementation =
    CountDistinct | SumField | RatioOfSums | PercentileField | MeanField | LatestByOrder | MaxField

  function Registered(calculation: Calculation): Implementation
  {
    match calculation
    case Count => CountDistinct
    case Sum => SumField
    case Duration => SumField
    case Ratio => RatioOfSums
    case P95 => PercentileField
    case Mean => MeanField
    case Latest => LatestByOrder
    case Max => MaxField
  }

  function RegisteredParameters(calculation: Calculation): map<string, Value>
  {
    match calculation
    case Count => map["distinct_field" := VString("record_id")]
    case Ratio => map["numerator_field" := VString("numerator"),
                      "denominator_field" := VString("denominator"),
                      "zero_denominator_state" := VString("unknown")]
    case P95 => map["value_field" := VString("value"), "probability" := VFloat(0.95),
                    "method" := VString("percentile_cont"),
                    "null_policy" := VString("explicit_exclusion_only")]
    case Latest => map["value_field" := VString("value"), "order_field" := VString("observed_order"),
                       "direction" := VString("ascending")]
    case _ => map["value_field" := VString("value")]
  }

  /** Shaped holds the three fields of a well-shaped evaluator; idIsBounded says whether the id
      matches the identifier pattern, and a None implementation is an unregistered one. */
  datatype Evaluator =
    | Misshapen
    | Shaped(idIsBounded: bool, implementation: Option<Implementation>, parameters: map<string, Value>)

  /** None stands for a field of the wrong type. */
  datatype Case = Case(
    authorized: Option<seq<string>>,
    records: Option<seq<Record>>,
    dedupeKey: Option<string>,
    calculation: Option<Calculation>,
    evaluator: Evaluator,
    intervalComplete: bool)

  datatype State = Unknown | NotObserved | NumericZero | Complete

  datatype Error = InvalidPolicy | InvalidRecord | UnauthorizedExclusion | InvalidEvaluator | InvalidRatioRecord

  datatype Evaluation = Evaluation(value: Option<real>, state: State, error: Option<Error>)

  function Failed(error: Error): Evaluation { Evaluation(None, Unknown, Some(error)) }

  const UNKNOWN := Evaluation(None, Unknown, None)

  // ---------- the population ----------

  predicate Unauthorized(record: Record, authorized: seq<string>)
  {
    var exclusion := Get(record, "exclusion_code");
    exclusion != VNull && !(exclusion.VString? && exclusion.text in authorized)
  }

  predicate InPopulation(record: Record)
  {
    Truthy(Get(record, "eligible")) && Truthy(Get(record, "in_interval")) && Get(record, "exclusion_code") == VNull
  }

  function Included(records: seq<Record>): seq<Record>
  {
    if records == [] then []
    else Included(records[..|records| - 1])
         + (if InPopulation(records[|records| - 1]) then [records[|records| - 1]] else [])
  }

  predicate Incomplete(record: Record)
  {
    Get(record, "completeness_state") != VString("complete")
  }

  /** A dedupe identity is a string or an integer; booleans do not pass for integers. */
  predicate HasIdentity(record: Record, key: string)
  {
    Get(record, key).VString? || Get(record, key).VInt?
  }

  function Identities(records: seq<Record>, key: string): set<Value>
  {
    set r | r in records :: Get(r, key)
  }

  predicate AnyUnauthorized(records: seq<Record>, authorized: seq<string>)
  {
    exists r :: r in records && Unauthorized(r, authorized)
  }

  predicate AnyIncomplete(records: seq<Record>)
  {
    exists r :: r in records && Incomplete(r)
  }

  predicate AnyUnidentified(records: seq<Record>, key: string)
  {
    exists r :: r in records && !HasIdentity(r, key)
  }

  /** The first record of each identity, in order. */
  function Deduplicated(records: seq<Record>, key: string): seq<Record>
  {
    if records == [] then []
    else
      var front, last := records[..|records| - 1], records[|records| - 1];
      Deduplicated(front, key) + (if Get(last, key) in Identities(front, key) then [] else [last])
  }

  predicate EvaluatorAccepted(evaluator: Evaluator, calculation: Option<Calculation>)
  {
    && evaluator.Shaped? && evaluator.idIsBounded && calculation.Some?
    && evaluator.implementation == Some(Registered(calculation.value))
    && evaluator.parameters == RegisteredParameters(calculation.value)
  }

  // ---------- the numbers ----------

  function NumericFields(implementation: Implementation): seq<string>
  {
    match implementation
    case CountDistinct => []
    case RatioOfSums => ["numerator", "denominator"]
    case LatestByOrder => ["value", "observed_order"]
    case _ => ["value"]
  }

  predicate AllNumeric(records: seq<Record>, fields: seq<string>)
  {
    forall r, f :: r in records && f in fields ==> Numeric(Get(r, f))
  }

  predicate FieldNumeric(records: seq<Record>, field: string)
  {
    forall i :: 0 <= i < |records| ==> Numeric(Get(records[i], field))
  }

  function Column(records: seq<Record>, field: string): seq<real>
    requires FieldNumeric(records, field)
  {
    seq(|records|, i requires 0 <= i < |records| => Number(Get(records[i], field)))
  }

  function Total(numbers: seq<real>): real
  {
    if numbers == [] then 0.0 else Total(numbers[..|numbers| - 1]) + numbers[|numbers| - 1]
  }

  predicate ProperRatio(record: Record)
    requires Numeric(Get(record, "numerator")) && Numeric(Get(record, "denominator"))
  {
    0.0 <= Number(Get(record, "numerator")) <= Number(Get(record, "denominator"))
  }

  /** The position of the first largest number: what max with a key returns. */
  function FirstMax(numbers: seq<real>): (k: nat)
    requires numbers != []
    ensures k < |numbers|
    ensures forall i :: 0 <= i < |numbers| ==> numbers[i] <= numbers[k]
    ensures forall i :: 0 <= i < k ==> numbers[i] < numbers[k]
  {
    var n := |numbers| - 1;
    if n == 0 then 0
    else
      var k := FirstMax(numbers[..n]);
      if numbers[n] > numbers[k] then n else k
  }

  /** The number a registered implementation gives a non-empty, numeric, deduplicated
      population; None only for a ratio whose denominators sum to zero. */
  function Compute(implementation: Implementation, records: seq<Record>): Option<real>
    requires records != []
    requires forall k :: 0 <= k < |NumericFields(implementation)| ==>
      FieldNumeric(records, NumericFields(implementation)[k])
  {
    assert implementation != CountDistinct ==>
        NumericFields(implementation)[0] == (if implementation == RatioOfSums then "numerator" else "value");
    assert implementation == RatioOfSums ==> NumericFields(implementation)[1] == "denominator";
    assert implementation == LatestByOrder ==> NumericFields(implementation)[1] == "observed_order";
    match implementation
    case CountDistinct => Some(|records| as real)
    case SumField => Some(Total(Column(records, "value")))
    case RatioOfSums =>
      var denominator := Total(Column(records, "denominator"));
      if denominator == 0.0 then None else Some(Total(Column(records, "numerator")) / denominator)
    case PercentileField => PercentileCont(Column(records, "value"), 0.95)
    case MeanField => Some(Total(Column(records, "value")) / (|records| as real))
    case LatestByOrder => Some(Column(records, "value")[FirstMax(Column(records, "observed_order"))])
    case MaxField => Some(Column(records, "value")[FirstMax(Column(records, "value"))])
  }

  function Classified(value: Option<real>): Evaluation
  {
    if value.None? then UNKNOWN
    else Evaluation(value, if value.value == 0.0 then NumericZero else Complete, None)
  }

  lemma NumericColumns(records: seq<Record>, fields: seq<string>)
    requires AllNumeric(records, fields)
    ensures forall k :: 0 <= k < |fields| ==> FieldNumeric(records, fields[k])
  {
    forall k | 0 <= k < |fields| ensures FieldNumeric(records, fields[k]) {
      forall i | 0 <= i < |records| ensures Numeric(Get(records[i], fields[k])) {
        assert records[i] in records && fields[k] in fields;
      }
    }
  }

  /** The evaluation of an already deduplicated population. */
  function EvaluatePopulation(c: Case, population: seq<Record>): Evaluation
  {
    if !EvaluatorAccepted(c.evaluator, c.calculation) then Failed(InvalidEvaluator)
    else if population == [] then
      Evaluation(None, if c.intervalComplete then NotObserved else Unknown, None)
    else
      var implementation := Registered(c.calculation.value);
      if !AllNumeric(population, NumericFields(implementation)) then Failed(InvalidRecord)
      else
        NumericColumns(population, NumericFields(implementation));
        if implementation == RatioOfSums && !AllProper(population) then Failed(InvalidRatioRecord)
        else Classified(Compute(implementation, population))
  }

  predicate AllProper(records: seq<Record>)
  {
    forall r :: r in records ==>
      && Numeric(Get(r, "numerator")) && Numeric(Get(r, "denominator")) && ProperRatio(r)
  }

  function Evaluate(c: Case): Evaluation
  {
    if c.authorized.None? then Failed(InvalidPolicy)
    else if c.records.None? then Failed(InvalidRecord)
    else if AnyUnauthorized(c.records.value, c.authorized.value) then Failed(UnauthorizedExclusion)
    else
      var included := Included(c.records.value);
      if AnyIncomplete(included) then UNKNOWN
      else if c.dedupeKey.None? || AnyUnidentified(included, c.dedupeKey.value) then
        Failed(InvalidRecord)
      else EvaluatePopulation(c, Deduplicated(included, c.dedupeKey.value))
  }

  /** evaluate_formula_case with its deduplication loop. */
  method EvaluateFormulaCase(c: Case) returns (e: Evaluation)
    ensures e == Evaluate(c)
  {
    if c.authorized.None? { return Failed(InvalidPolicy); }
    if c.records.None? { return Failed(InvalidRecord); }
    if AnyUnauthorized(c.records.value, c.authorized.value) { return Failed(UnauthorizedExclusion); }
    var included := Included(c.records.value);
    if AnyIncomplete(included) { return UNKNOWN; }
    if c.dedupeKey.None? || AnyUnidentified(included, c.dedupeKey.value) {
      return Failed(InvalidRecord);
    }
    var deduplicated := Deduplicate(included, c.dedupeKey.value);
    e := EvaluatePopulation(c, deduplicated);
  }

  method Deduplicate(included: seq<Record>, key: string) returns (deduplicated: seq<Record>)
    ensures deduplicated == Deduplicated(included, key)
  {
    deduplicated := [];
    var seen: set<Value> := {};
    for i := 0 to |included|
      invariant deduplicated == Deduplicated(included[..i], key)
      invariant seen == Identities(included[..i], key)
    {
      var identity := Get(included[i], key);
      assert included[..i + 1][..i] == included[..i];
      assert included[..i + 1] == included[..i] + [included[i]];
      IdentitiesSnoc(included[..i], included[i], key);
      if identity !in seen {
        deduplicated := deduplicated + [included[i]];
      }
      seen := seen + {identity};
    }
    assert included[..|included|] == included;
  }

  // ---------- replays ----------

  lemma {:induction false} IncludedConcat(s: seq<Record>, t: seq<Record>)
    ensures Included(s + t) == Included(s) + Included(t)
  {
    if t == [] {
      assert s + t == s;
    } else {
      var n := |t| - 1;
      assert (s + t)[..|s + t| - 1] == s + t[..n];
      IncludedConcat(s, t[..n]);
    }
  }

  lemma {:induction false} IncludedMember(s: seq<Record>, r: Record)
    ensures r in Included(s) <==> r in s && InPopulation(r)
  {
    if s != [] {
      var n := |s| - 1;
      IncludedMember(s[..n], r);
      assert s == s[..n] + [s[n]];
    }
  }

  lemma {:induction false} DeduplicatedReplay(s: seq<Record>, t: seq<Record>, key: string)
    requires forall r :: r in t ==> Get(r, key) in Identities(s, key)
    ensures Deduplicated(s + t, key) == Deduplicated(s, key)
  {
    if t == [] {
      assert s + t == s;
    } else {
      var n := |t| - 1;
      assert t == t[..n] + [t[n]];
      assert (s + t)[..|s + t| - 1] == s + t[..n];
      DeduplicatedReplay(s, t[..n], key);
      assert Identities(s, key) <= Identities(s + t[..n], key);
    }
  }

  /** Records followed by any repeats of them evaluate as the records alone. */
  lemma ReplaysChangeNothing(c: Case, records: seq<Record>, replayed: seq<Record>)
    requires forall r :: r in replayed ==> r in records
    ensures Evaluate(c.(records := Some(records + replayed))) == Evaluate(c.(records := Some(records)))
  {
    hide Included, Get, Deduplicated;
    var once, twice := Included(records), Included(records + replayed);
    IncludedConcat(records, replayed);
    forall r ensures r in twice <==> r in once {
      IncludedMember(records, r);
      IncludedMember(records + replayed, r);
    }
    if c.authorized.Some? {
      assert AnyUnauthorized(records + replayed, c.authorized.value) == AnyUnauthorized(records, c.authorized.value);
    }
    assert AnyIncomplete(once) == AnyIncomplete(twice);
    if c.dedupeKey.Some? {
      var key := c.dedupeKey.value;
      forall r | r in Included(replayed) ensures Get(r, key) in Identities(once, key) {
        assert r in twice;
      }
      DeduplicatedReplay(once, Included(replayed), key);
      assert AnyUnidentified(once, key) == AnyUnidentified(twice, key);
    }
  }

  // ---------- unknown is not zero ----------

  lemma UnauthorizedExclusionForcesUnknown(c: Case, r: Record)
    requires c.authorized.Some? && c.records.Some?
    requires r in c.records.value && Unauthorized(r, c.authorized.value)
    ensures Evaluate(c) == Failed(UnauthorizedExclusion)
  {
  }

  lemma IncompleteRecordForcesUnknown(c: Case, r: Record)
    requires c.records.Some? && r in c.records.value && InPopulation(r) && Incomplete(r)
    ensures Evaluate(c).value.None? && Evaluate(c).state == Unknown
  {
    IncludedMember(c.records.value, r);
  }

  /** Zero is reported exactly for a computed zero, and a computed value is never anything else
      than zero or complete. */
  lemma ZeroIsObserved(c: Case)
    ensures Evaluate(c).state == NumericZero <==> Evaluate(c).value == Some(0.0)
    ensures Evaluate(c).state == Complete <==> Evaluate(c).value.Some? && Evaluate(c).value != Some(0.0)
    ensures Evaluate(c).error.Some? ==> Evaluate(c).state == Unknown
  {
  }

  /** Deduplication keeps every identity, each once. */
  lemma {:induction false} DeduplicatedIdentities(records: seq<Record>, key: string)
    ensures Identities(Deduplicated(records, key), key) == Identities(records, key)
    ensures forall i, j :: 0 <= i < j < |Deduplicated(records, key)| ==>
      Get(Deduplicated(records, key)[i], key) != Get(Deduplicated(records, key)[j], key)
  {
    if records != [] {
      var n := |records| - 1;
      var front, kept := records[..n], Deduplicated(records[..n], key);
      DeduplicatedIdentities(front, key);
      IdentitiesSnoc(front, records[n], key);
      assert records == front + [records[n]];
      if Get(records[n], key) !in Identities(front, key) {
        IdentitiesSnoc(kept, records[n], key);
        assert forall i :: 0 <= i < |kept| ==> Get(kept[i], key) in Identities(kept, key);
      }
    }
  }

  lemma IdentitiesSnoc(records: seq<Record>, last: Record, key: string)
    ensures Identities(records + [last], key) == Identities(records, key) + {Get(last, key)}
  {
  }

  lemma DeduplicatedSome(records: seq<Record>, key: string)
    ensures Deduplicated(records, key) == [] <==> records == []
  {
    DeduplicatedIdentities(records, key);
    if records != [] {
      assert Get(records[0], key) in Identities(records, key);
    }
  }

  /** An empty population has no value, so in particular it is never zero. */
  lemma EmptyPopulationIsNeverZero(c: Case)
    requires c.records.Some? && (forall r :: r in c.records.value ==> !InPopulation(r))
    ensures Evaluate(c).value.None? && Evaluate(c).state != NumericZero
    ensures Evaluate(c).state == NotObserved ==> c.intervalComplete
  {
    var included := Included(c.records.value);
    if included != [] {
      assert included[0] in included;
      IncludedMember(c.records.value, included[0]);
    }
    if c.dedupeKey.Some? { DeduplicatedSome(included, c.dedupeKey.value); }
  }

  lemma {:induction false} TotalBetween(low: seq<real>, high: seq<real>)
    requires |low| == |high| && forall i :: 0 <= i < |low| ==> 0.0 <= low[i] <= high[i]
    ensures 0.0 <= Total(low) <= Total(high)
  {
    if low != [] {
      TotalBetween(low[..|low| - 1], high[..|high| - 1]);
    }
  }

  lemma QuotientInUnit(a: real, b: real)
    requires 0.0 <= a <= b && b != 0.0
    ensures 0.0 <= a / b <= 1.0
  {
    var q := a / b;
    assert q * b == a;
    if q < 0.0 { ProductNonNegative(-q, b); }
    if q > 1.0 { ProductNonNegative(q - 1.0, b); }
  }

  /** A ratio that is reported lies between zero and one. */
  lemma RatioInUnit(c: Case)
    requires c.calculation == Some(Ratio) && Evaluate(c).value.Some?
    ensures 0.0 <= Evaluate(c).value.value <= 1.0
  {
    var population := Deduplicated(Included(c.records.value), c.dedupeKey.value);
    NumericColumns(population, NumericFields(RatioOfSums));
    assert NumericFields(RatioOfSums)[0] == "numerator" && NumericFields(RatioOfSums)[1] == "denominator";
    var numerators, denominators := Column(population, "numerator"), Column(population, "denominator");
    forall i | 0 <= i < |population| ensures 0.0 <= numerators[i] <= denominators[i] {
      assert population[i] in population;
    }
    TotalBetween(numerators, denominators);
    QuotientInUnit(Total(numerators), Total(denominators));
  }

  /** The records may be counted: authorised, complete and identified. */
  ghost predicate Countable(c: Case)
  {
    && c.authorized.Some? && c.records.Some? && c.dedupeKey.Some?
    && (forall r :: r in c.records.value ==> !Unauthorized(r, c.authorized.value))
    && (forall r :: r in c.records.value && InPopulation(r) ==>
         !Incomplete(r) && HasIdentity(r, c.dedupeKey.value))
  }

  /** What must hold of a case for it to yield a number. */
  ghost predicate Answerable(c: Case)
  {
    && Countable(c)
    && EvaluatorAccepted(c.evaluator, c.calculation)
    && (exists r :: r in c.records.value && InPopulation(r))
    && Computable(c.calculation.value, Deduplicated(Included(c.records.value), c.dedupeKey.value))
  }

  /** The fields a calculation reads are numeric, and a ratio has proper parts and some
      non-zero denominator. */
  ghost predicate Computable(calculation: Calculation, population: seq<Record>)
  {
    && AllNumeric(population, NumericFields(Registered(calculation)))
    && (calculation == Ratio ==> AllProper(population) && exists r :: r in population && NonZero(Get(r, "denominator")))
  }

  predicate NonZero(v: Value)
  {
    v != VInt(0) && v != VFloat(0.0)
  }

  lemma {:induction false} TotalZero(numbers: seq<real>)
    requires forall i :: 0 <= i < |numbers| ==> numbers[i] >= 0.0
    ensures Total(numbers) >= 0.0
    ensures Total(numbers) == 0.0 <==> forall i :: 0 <= i < |numbers| ==> numbers[i] == 0.0
  {
    if numbers != [] {
      var n := |numbers| - 1;
      TotalZero(numbers[..n]);
      assert forall i :: 0 <= i < n ==> numbers[..n][i] == numbers[i];
    }
  }

  lemma PopulationValue(c: Case, population: seq<Record>)
    requires EvaluatorAccepted(c.evaluator, c.calculation) && population != []
    ensures EvaluatePopulation(c, population).value.Some? <==> Computable(c.calculation.value, population)
  {
    if c.calculation.value == Ratio && AllNumeric(population, NumericFields(RatioOfSums)) && AllProper(population) {
      RatioDefined(population);
    }
  }

  lemma CountableReachesPopulation(c: Case)
    ensures Countable(c) ==>
      Evaluate(c) == EvaluatePopulation(c, Deduplicated(Included(c.records.value), c.dedupeKey.value))
    ensures !Countable(c) ==> Evaluate(c).value.None?
  {
    if c.records.Some? { IncludedExactly(c.records.value); }
  }

  /** A number is reported if and only if the case is answerable. */
  lemma ValueIffAnswerable(c: Case)
    ensures Evaluate(c).value.Some? <==> Answerable(c)
  {
    CountableReachesPopulation(c);
    if Countable(c) {
      var included := Included(c.records.value);
      var population := Deduplicated(included, c.dedupeKey.value);
      IncludedExactly(c.records.value);
      DeduplicatedSome(included, c.dedupeKey.value);
      if EvaluatorAccepted(c.evaluator, c.calculation) && population != [] {
        PopulationValue(c, population);
      }
    }
  }

  lemma IncludedExactly(records: seq<Record>)
    ensures forall r :: r in Included(records) <==> r in records && InPopulation(r)
    ensures Included(records) == [] <==> !exists r :: r in records && InPopulation(r)
  {
    forall r ensures r in Included(records) <==> r in records && InPopulation(r) { IncludedMember(records, r); }
    if Included(records) != [] { assert Included(records)[0] in Included(records); }
  }

  lemma RatioDefined(population: seq<Record>)
    requires AllNumeric(population, NumericFields(RatioOfSums)) && AllProper(population)
    ensures FieldNumeric(population, "denominator")
    ensures Total(Column(population, "denominator")) != 0.0 <==>
      exists r :: r in population && NonZero(Get(r, "denominator"))
  {
    NumericColumns(population, NumericFields(RatioOfSums));
    assert NumericFields(RatioOfSums)[1] == "denominator";
    var column := Column(population, "denominator");
    forall i | 0 <= i < |column| ensures column[i] >= 0.0 { assert population[i] in population; }
    TotalZero(column);
    if exists r :: r in population && NonZero(Get(r, "denominator")) {
      var r :| r in population && NonZero(Get(r, "denominator"));
      var i :| 0 <= i < |population| && population[i] == r;
      assert column[i] != 0.0;
    }
    if Total(column) != 0.0 {
      var i :| 0 <= i < |column| && column[i] != 0.0;
      assert population[i] in population;
    }
  }
}
