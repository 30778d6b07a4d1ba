/**
 * The request helpers (backend/utils/helpers.py): the validator of a
 * prediction request, the combined risk score with its five bands, the
 * reading of single features against clinical thresholds, feature units,
 * and the shape of an API response.
 *
 * A request is a value of `Request`, whose fields are the optional keys of
 * the JSON body; `Value` distinguishes the Python types the validator tests
 * for. Messages are values of `Message` rather than formatted strings, and
 * the wall clock is the parameter `now`.
 */
module Helpers {
  import opened Common

  // ---------------------------------------------------------------------
  // Validation
  // ---------------------------------------------------------------------

  /** A JSON value as the validator sees it. `Number(x, builtin)` is a
      number; `builtin` says whether it is a Python `int`, `float` or `bool`
      (for which the extreme-value checks run) rather than another numpy
      scalar. */
  datatype Value = Number(x: real, builtin: bool) | Text(s: string) | Null | Other

  /** The `features` entry: a Python list, a numpy array, or anything else. */
  datatype Features = PyList(items: seq<Value>) | NdArray(items: seq<Value>) | NotSequence

  datatype Request = Request(features: Option<Features>, patientId: Option<Value>, modelType: Option<Value>)

  /** The validator's messages, one constructor per message text. */
  datatype Message =
    | MissingFeatures
    | NotASequence
    | CountMismatch(count: nat)
    | NotNumeric(index: nat)
    | NegativeValue(index: nat, value: real)
    | LargeValue(index: nat, value: real)
    | PatientIdNotString
    | UnexpectedModelType(given: Value)
    | NoneValues

  /** The validator's answer; `warnings` is absent when `features` is. */
  datatype Validation = Validation(valid: bool, errors: seq<Message>, warnings: Option<seq<Message>>)

  /** The number of features a request is expected to carry. */
  const ExpectedFeatureCount: nat := 13
  /** Above this a value is unusually large. */
  const LargeValueLimit: real := 1000.0
  const KnownModelTypes: seq<string> := ["federated", "centralized"]

  /** The index at which the scan stops: the first value that is not a
      number, or the length. */
  function FirstNonNumeric(items: seq<Value>): (k: nat)
    ensures k <= |items|
    ensures forall i :: 0 <= i < k ==> items[i].Number?
    ensures k < |items| ==> !items[k].Number?
  {
    if items == [] || !items[0].Number? then 0
    else 1 + FirstNonNumeric(items[1..])
  }

  /** The warnings the scan raises for the value at position i. */
  function ItemWarnings(i: nat, v: Value): seq<Message> {
    if v.Number? && v.builtin then
      (if v.x < 0.0 then [NegativeValue(i, v.x)] else []) +
      (if v.x > LargeValueLimit then [LargeValue(i, v.x)] else [])
    else []
  }

  /** The warnings for the first n values, in order. */
  function ValueWarnings(items: seq<Value>, n: nat): seq<Message>
    requires n <= |items|
  {
    if n == 0 then [] else ValueWarnings(items, n - 1) + ItemWarnings(n - 1, items[n - 1])
  }

  /** The errors and warnings of the type and value checks on `features`. */
  function Scan(f: Features): (seq<Message>, seq<Message>) {
    if f.NotSequence? then ([NotASequence], [])
    else
      var k := FirstNonNumeric(f.items);
      ((if k < |f.items| then [NotNumeric(k)] else []),
       (if |f.items| != ExpectedFeatureCount then [CountMismatch(|f.items|)] else []) + ValueWarnings(f.items, k))
  }

  function PatientIdErrors(patientId: Option<Value>): seq<Message> {
    if patientId.Some? && !patientId.value.Text? then [PatientIdNotString] else []
  }

  function ModelTypeWarnings(modelType: Option<Value>): seq<Message> {
    if modelType.Some? && !(modelType.value.Text? && modelType.value.s in KnownModelTypes)
    then [UnexpectedModelType(modelType.value)] else []
  }

  /** Only a Python list is searched for `None`. */
  function NoneErrors(f: Features): seq<Message> {
    if f.PyList? && exists i :: 0 <= i < |f.items| && f.items[i] == Null then [NoneValues] else []
  }

  /** `validate_patient_data`. */
  function Validate(req: Request): Validation {
    if req.features.None? then Validation(false, [MissingFeatures], None)
    else
      var f := req.features.value;
      var errors := Scan(f).0 + PatientIdErrors(req.patientId) + NoneErrors(f);
      Validation(|errors| == 0, errors, Some(Scan(f).1 + ModelTypeWarnings(req.modelType)))
  }

  /** Each value warning names a scanned built-in number and its value,
      and says truly that it is negative or unusually large. */
  lemma {:induction false} ValueWarningsSound(items: seq<Value>, n: nat)
    requires n <= |items|
    ensures forall m :: m in ValueWarnings(items, n) ==>
      (m.NegativeValue? || m.LargeValue?) && m.index < n &&
      items[m.index] == Number(m.value, true) &&
      (m.NegativeValue? ==> m.value < 0.0) && (m.LargeValue? ==> m.value > LargeValueLimit)
  {
    forall m | m in ValueWarnings(items, n)
      ensures (m.NegativeValue? || m.LargeValue?) && m.index < n &&
        items[m.index] == Number(m.value, true) &&
        (m.NegativeValue? ==> m.value < 0.0) && (m.LargeValue? ==> m.value > LargeValueLimit)
    {
      WarningSource(items, n, m);
      ItemWarningsContent(m.index, items[m.index]);
    }
  }

  /** One value warning traced back to the position whose check raised it. */
  lemma {:induction false} WarningSource(items: seq<Value>, n: nat, m: Message)
    requires n <= |items| && m in ValueWarnings(items, n)
    ensures m.NegativeValue? || m.LargeValue?
    ensures m.index < n && m in ItemWarnings(m.index, items[m.index])
  {
    assert ValueWarnings(items, 0) == [];
    var k := n - 1;
    var prev, last := ValueWarnings(items, k), ItemWarnings(k, items[k]);
    assert ValueWarnings(items, n) == prev + last;
    if m in prev {
      WarningSource(items, k, m);
    } else {
      ItemWarningsContent(k, items[k]);
    }
  }

  /** Every negative and every unusually large built-in number among the
      first n values is warned about. */
  lemma {:induction false} ValueWarningsComplete(items: seq<Value>, n: nat)
    requires n <= |items|
    ensures forall i :: 0 <= i < n && items[i].Number? && items[i].builtin && items[i].x < 0.0 ==>
      NegativeValue(i, items[i].x) in ValueWarnings(items, n)
    ensures forall i :: 0 <= i < n && items[i].Number? && items[i].builtin && items[i].x > LargeValueLimit ==>
      LargeValue(i, items[i].x) in ValueWarnings(items, n)
  {
    forall i | 0 <= i < n && items[i].Number? && items[i].builtin && items[i].x < 0.0
      ensures NegativeValue(i, items[i].x) in ValueWarnings(items, n)
    {
      WarnedAt(items, n, i, NegativeValue(i, items[i].x));
    }
    forall i | 0 <= i < n && items[i].Number? && items[i].builtin && items[i].x > LargeValueLimit
      ensures LargeValue(i, items[i].x) in ValueWarnings(items, n)
    {
      WarnedAt(items, n, i, LargeValue(i, items[i].x));
    }
  }

  /** A warning the value at position i raises is kept once the scan has
      passed it. */
  lemma {:induction false} WarnedAt(items: seq<Value>, n: nat, i: nat, m: Message)
    requires i < n <= |items| && m in ItemWarnings(i, items[i])
    ensures m in ValueWarnings(items, n)
  {
    var k := n - 1;
    if i < k {
      WarnedAt(items, k, i, m);
    }
    InAppend(ValueWarnings(items, k), ItemWarnings(k, items[k]), m);
  }

  lemma {:induction false} InAppend<T>(a: seq<T>, b: seq<T>, x: T)
    requires x in a || x in b
    ensures x in a + b
  {
    if x in a {
      var j :| 0 <= j < |a| && a[j] == x;
      assert (a + b)[j] == x;
    } else {
      var j :| 0 <= j < |b| && b[j] == x;
      assert (a + b)[|a| + j] == x;
    }
  }

  lemma {:induction false} ItemWarningsContent(i: nat, v: Value)
    ensures forall m :: m in ItemWarnings(i, v) ==>
      (m.NegativeValue? || m.LargeValue?) && m.index == i && v == Number(m.value, true) &&
      (m.NegativeValue? ==> m.value < 0.0) && (m.LargeValue? ==> m.value > LargeValueLimit)
    ensures v.Number? && v.builtin && v.x < 0.0 ==> NegativeValue(i, v.x) in ItemWarnings(i, v)
    ensures v.Number? && v.builtin && v.x > LargeValueLimit ==> LargeValue(i, v.x) in ItemWarnings(i, v)
  {
  }

  /** A request is valid exactly when it has `features`, they are a list or
      an array of numbers only, and `patient_id` is absent or a string. */
  lemma {:induction false} ValidIffWellTyped(req: Request)
    ensures Validate(req).valid <==>
      req.features.Some? && !req.features.value.NotSequence? &&
      (forall i :: 0 <= i < |req.features.value.items| ==> req.features.value.items[i].Number?) &&
      (req.patientId.None? || req.patientId.value.Text?)
  {
    if req.features.Some? && !req.features.value.NotSequence? {
      var items := req.features.value.items;
      var k := FirstNonNumeric(items);
      if k == |items| {
        assert forall i :: 0 <= i < |items| ==> items[i] != Null;
      }
    }
  }

  /** A missing `features` is the only error reported; a wrong count is a
      warning and never an error; the errors are only of the error kinds. */
  lemma {:induction false} ValidationMessages(req: Request)
    ensures req.features.None? ==> Validate(req) == Validation(false, [MissingFeatures], None)
    ensures forall m :: m in Validate(req).errors ==>
      !(m.CountMismatch? || m.NegativeValue? || m.LargeValue? || m.UnexpectedModelType?)
    ensures req.features.Some? ==> (Validate(req).warnings.Some? &&
      forall n: nat :: CountMismatch(n) in Validate(req).warnings.value <==>
        !req.features.value.NotSequence? && n == |req.features.value.items| && n != ExpectedFeatureCount)
  {
    if req.features.Some? && !req.features.value.NotSequence? {
      var items := req.features.value.items;
      ValueWarningsSound(items, FirstNonNumeric(items));
    }
  }

  /** The scan stops at the first value that is not a number: that value
      is the one numeric-type error, and no value warning names a position
      at or after it; before it, every negative and every unusually large
      built-in number is warned about. */
  lemma {:induction false} ScanStopsAtFirstNonNumeric(req: Request)
    requires req.features.Some? && !req.features.value.NotSequence?
    ensures var items := req.features.value.items;
      var k := FirstNonNumeric(items);
      var w := Validate(req).warnings.value;
      (forall j: nat :: NotNumeric(j) in Validate(req).errors <==> j == k && k < |items|) &&
      (forall m :: m in w && (m.NegativeValue? || m.LargeValue?) ==> m.index < k) &&
      (forall i :: 0 <= i < k && items[i].builtin && items[i].x < 0.0 ==> NegativeValue(i, items[i].x) in w) &&
      (forall i :: 0 <= i < k && items[i].builtin && items[i].x > LargeValueLimit ==> LargeValue(i, items[i].x) in w)
  {
    var items := req.features.value.items;
    ValueWarningsSound(items, FirstNonNumeric(items));
    ValueWarningsComplete(items, FirstNonNumeric(items));
  }

  /** The loop of `validate_patient_data` over the values: it breaks at
      the first value that is not a number. */
  method ScanValues(items: seq<Value>) returns (errors: seq<Message>, warnings: seq<Message>)
    ensures errors == Scan(PyList(items)).0
    ensures warnings == ValueWarnings(items, FirstNonNumeric(items))
  {
    errors := [];
    warnings := [];
    var i := 0;
    while i < |items|
      invariant 0 <= i <= FirstNonNumeric(items)
      invariant errors == []
      invariant warnings == ValueWarnings(items, i)
    {
      var value := items[i];
      if !value.Number? {
        errors := errors + [NotNumeric(i)];
        break;
      }
      ghost var before := warnings;
      if value.builtin {
        if value.x < 0.0 {
          warnings := warnings + [NegativeValue(i, value.x)];
        }
        if value.x > LargeValueLimit {
          warnings := warnings + [LargeValue(i, value.x)];
        }
      }
      assert warnings == before + ItemWarnings(i, value);
      assert ValueWarnings(items, i + 1) == before + ItemWarnings(i, value);
      i := i + 1;
    }
    assert i == FirstNonNumeric(items);
  }

  /** `validate_patient_data`. */
  method ValidatePatientData(req: Request) returns (v: Validation)
    ensures v == Validate(req)
  {
    var errors: seq<Message> := [];
    var warnings: seq<Message> := [];
    if req.features.None? {
      errors := errors + [MissingFeatures];
      return Validation(false, errors, None);
    }
    var features := req.features.value;
    if features.NotSequence? {
      errors := errors + [NotASequence];
    } else {
      var items := features.items;
      if |items| != ExpectedFeatureCount {
        warnings := warnings + [CountMismatch(|items|)];
      }
      var scanErrors, valueWarnings := ScanValues(items);
      errors := errors + scanErrors;
      warnings := warnings + valueWarnings;
    }
    assert errors == Scan(features).0 && warnings == Scan(features).1;
    if req.patientId.Some? && !req.patientId.value.Text? {
      errors := errors + [PatientIdNotString];
    }
    if req.modelType.Some? && !(req.modelType.value.Text? && req.modelType.value.s in KnownModelTypes) {
      warnings := warnings + [UnexpectedModelType(req.modelType.value)];
    }
    if features.PyList? && exists i :: 0 <= i < |features.items| && features.items[i] == Null {
      errors := errors + [NoneValues];
    }
    assert errors == Scan(features).0 + PatientIdErrors(req.patientId) + NoneErrors(features);
    assert warnings == Scan(features).1 + ModelTypeWarnings(req.modelType);
    v := Validation(|errors| == 0, errors, Some(warnings));
  }

  // ---------------------------------------------------------------------
  // Risk bands
  // ---------------------------------------------------------------------

  const RiskLevels: seq<string> := ["Very Low", "Low", "Moderate", "High", "Very High"]
  const Recommendations: seq<string> := [
    "Continue regular checkups", "Maintain healthy lifestyle", "Consult healthcare provider",
    "Schedule immediate consultation", "Seek immediate medical attention"]

  /** The band of a risk or a probability: cuts at 0.2, 0.4, 0.6 and 0.8. */
  function BandIndex(p: real): (k: nat)
    ensures k < |RiskLevels|
  {
    if p < 0.2 then 0 else if p < 0.4 then 1 else if p < 0.6 then 2 else if p < 0.8 then 3 else 4
  }

  /** Band k holds [0.2·k, 0.2·(k+1)), with the lowest band open below and
      the highest open above, so a larger value never falls in a lower
      band. */
  lemma {:induction false} BandIsInterval(p: real, q: real, k: nat)
    requires k < |RiskLevels|
    ensures BandIndex(p) == k <==>
      (k == 0 || 0.2 * k as real <= p) && (k == |RiskLevels| - 1 || p < 0.2 * (k + 1) as real)
    ensures p <= q ==> BandIndex(p) <= BandIndex(q)
  {
  }

  // ---------------------------------------------------------------------
  // Risk score
  // ---------------------------------------------------------------------

  const FactorNames: seq<string> := ["age_risk", "blood_pressure_risk", "cholesterol_risk", "heart_rate_risk", "oldpeak_risk"]
  const FactorWeights: seq<real> := [0.2, 0.25, 0.2, 0.2, 0.15]
  const PredictionWeight: real := 0.7
  const FeatureWeight: real := 0.3

  /** `min(features[i] / scale, 1.0)`, or 0 when the vector is too short. */
  function Capped(features: seq<real>, i: nat, scale: real): real
    requires scale > 0.0
  {
    if |features| > i then Min(features[i] / scale, 1.0) else 0.0
  }

  /** The five risk factors, in the order of `FactorNames`. */
  function RiskFactors(features: seq<real>): seq<real> {
    [Capped(features, 0, 100.0), Capped(features, 3, 200.0), Capped(features, 4, 300.0),
     if |features| > 7 then 1.0 - Min(features[7] / 200.0, 1.0) else 0.0,
     Capped(features, 9, 4.0)]
  }

  /** Σ a[i]·w[i]. */
  function Dot(a: seq<real>, w: seq<real>): real
    requires |a| == |w|
  {
    if a == [] then 0.0 else a[0] * w[0] + Dot(a[1..], w[1..])
  }

  function WeightedRisk(features: seq<real>): real {
    Dot(RiskFactors(features), FactorWeights)
  }

  function FinalRisk(features: seq<real>, prediction: int, confidence: real): real {
    PredictionWeight * (prediction as real * confidence) + FeatureWeight * WeightedRisk(features)
  }

  datatype RiskScore = RiskScore(
    finalRiskScore: real, riskLevel: string, recommendation: string,
    basePredictionRisk: real, weightedFeatureRisk: real,
    riskFactors: seq<(string, real)>, timestamp: int)

  /** `calculate_risk_score`: the band is chosen on the unrounded risk,
      and the reported numbers are rounded to four places. */
  function CalculateRiskScore(features: seq<real>, prediction: int, confidence: real, now: int): RiskScore {
    var finalRisk := FinalRisk(features, prediction, confidence);
    var band := BandIndex(finalRisk);
    var factors := RiskFactors(features);
    RiskScore(
      RoundTo(finalRisk, 4), RiskLevels[band], Recommendations[band],
      RoundTo(prediction as real * confidence, 4), RoundTo(WeightedRisk(features), 4),
      seq(|FactorNames|, i requires 0 <= i < |FactorNames| => (FactorNames[i], RoundTo(factors[i], 4))),
      now)
  }

  /** A weighted sum of values in [0, 1] with non-negative weights lies
      between 0 and the sum of the weights. */
  lemma {:induction false} DotBounds(a: seq<real>, w: seq<real>)
    requires |a| == |w|
    requires forall i :: 0 <= i < |a| ==> 0.0 <= a[i] <= 1.0 && 0.0 <= w[i]
    ensures 0.0 <= Dot(a, w) <= Sum(w)
  {
    if a != [] {
      DotBounds(a[1..], w[1..]);
      assert 0.0 <= a[0] * w[0] <= w[0];
      SumCons(w);
    }
  }

  /** The factor weights sum to 1, and the two parts of the final risk are
      weighted 0.7 and 0.3. */
  lemma {:induction false} WeightsSumToOne()
    ensures Sum(FactorWeights) == 1.0
    ensures PredictionWeight + FeatureWeight == 1.0
  {
    SumCons(FactorWeights);
    SumCons(FactorWeights[1..]);
    SumCons(FactorWeights[2..]);
    SumCons(FactorWeights[3..]);
    SumCons(FactorWeights[4..]);
  }

  /** The features the factors read. */
  predicate NonNegativeFactorInputs(features: seq<real>) {
    forall i :: 0 <= i < |features| && i in {0, 3, 4, 7, 9} ==> 0.0 <= features[i]
  }

  /** With non-negative clinical inputs, a 0/1 prediction and a confidence
      in [0, 1], every factor and the final risk lie in [0, 1]; a negative
      prediction caps the risk at 0.3, so its band is at most `Low`. */
  lemma {:induction false} RiskInUnitInterval(features: seq<real>, prediction: int, confidence: real, now: int)
    requires NonNegativeFactorInputs(features)
    requires prediction == 0 || prediction == 1
    requires 0.0 <= confidence <= 1.0
    ensures forall i :: 0 <= i < |RiskFactors(features)| ==> 0.0 <= RiskFactors(features)[i] <= 1.0
    ensures 0.0 <= WeightedRisk(features) <= 1.0
    ensures 0.0 <= FinalRisk(features, prediction, confidence) <= 1.0
    ensures prediction == 0 ==> (FinalRisk(features, prediction, confidence) <= FeatureWeight &&
      CalculateRiskScore(features, prediction, confidence, now).riskLevel in RiskLevels[..2])
  {
    var factors := RiskFactors(features);
    forall i | 0 <= i < |factors|
      ensures 0.0 <= factors[i] <= 1.0
    {
      if i == 0 && |features| > 0 { DivMonotone(0.0, features[0], 100.0); }
      if i == 1 && |features| > 3 { DivMonotone(0.0, features[3], 200.0); }
      if i == 2 && |features| > 4 { DivMonotone(0.0, features[4], 300.0); }
      if i == 3 && |features| > 7 { DivMonotone(0.0, features[7], 200.0); }
      if i == 4 && |features| > 9 { DivMonotone(0.0, features[9], 4.0); }
    }
    DotBounds(factors, FactorWeights);
    WeightsSumToOne();
    assert 0.0 <= prediction as real * confidence <= 1.0;
    if prediction == 0 {
      assert BandIndex(FinalRisk(features, prediction, confidence)) <= 1;
    }
  }

  /** The level and the recommendation come from the same band. */
  lemma {:induction false} LevelMatchesRecommendation(features: seq<real>, prediction: int, confidence: real, now: int)
    ensures var r := CalculateRiskScore(features, prediction, confidence, now);
      exists k :: 0 <= k < |RiskLevels| && r.riskLevel == RiskLevels[k] && r.recommendation == Recommendations[k] &&
        k == BandIndex(FinalRisk(features, prediction, confidence))
  {
    var k := BandIndex(FinalRisk(features, prediction, confidence));
    assert CalculateRiskScore(features, prediction, confidence, now).riskLevel == RiskLevels[k];
  }

  // ---------------------------------------------------------------------
  // Reading single features
  // ---------------------------------------------------------------------

  /** `_interpret_feature`. */
  function InterpretFeature(name: string, v: real): string {
    if name == "Age" then
      if v < 40.0 then "Young" else if v < 60.0 then "Middle-aged" else "Senior"
    else if name == "Resting Blood Pressure" then
      if v < 120.0 then "Normal" else if v < 130.0 then "Elevated"
      else if v < 140.0 then "High Stage 1" else if v < 180.0 then "High Stage 2"
      else "Hypertensive Crisis"
    else if name == "Cholesterol" then
      if v < 200.0 then "Desirable" else if v < 240.0 then "Borderline High" else "High"
    else if name == "Maximum Heart Rate" then
      if v < 100.0 then "Low" else if v < 150.0 then "Normal" else "High"
    else if name == "Sex" then
      if v == 0.0 then "Female" else "Male"
    else "Unknown"
  }

  /** The thresholds of a banded feature, ascending, and its labels from
      the lowest band up: a reference table for `InterpretFeature`. */
  datatype Banding = Banding(cuts: seq<real>, labels: seq<string>)

  const Bandings: map<string, Banding> := map[
    "Age" := Banding([40.0, 60.0], ["Young", "Middle-aged", "Senior"]),
    "Resting Blood Pressure" := Banding([120.0, 130.0, 140.0, 180.0],
      ["Normal", "Elevated", "High Stage 1", "High Stage 2", "Hypertensive Crisis"]),
    "Cholesterol" := Banding([200.0, 240.0], ["Desirable", "Borderline High", "High"]),
    "Maximum Heart Rate" := Banding([100.0, 150.0], ["Low", "Normal", "High"])]

  /** How many thresholds v has reached. */
  function Reached(cuts: seq<real>, v: real): (n: nat)
    ensures n <= |cuts|
  {
    if cuts == [] then 0 else (if cuts[0] <= v then 1 else 0) + Reached(cuts[1..], v)
  }

  lemma {:induction false} ReachedMonotone(cuts: seq<real>, v: real, w: real)
    requires v <= w
    ensures Reached(cuts, v) <= Reached(cuts, w)
  {
    if cuts != [] {
      ReachedMonotone(cuts[1..], v, w);
    }
  }

  lemma {:induction false} ReachedPair(a: real, b: real, v: real)
    requires a <= b
    ensures Reached([a, b], v) == (if v < a then 0 else if v < b then 1 else 2)
  {
    assert [a, b][1..] == [b];
    assert [b][1..] == [];
  }

  /** A banded feature reads as the label of the number of its thresholds
      the value has reached, so a larger value never reads as a lower band;
      `Sex` reads 0 as female and anything else as male, and every other
      name is `Unknown`. */
  lemma {:induction false} InterpretationFollowsBandings(name: string, v: real, w: real)
    ensures name in Bandings ==>
      Reached(Bandings[name].cuts, v) < |Bandings[name].labels| &&
      InterpretFeature(name, v) == Bandings[name].labels[Reached(Bandings[name].cuts, v)]
    ensures name in Bandings && v <= w ==> Reached(Bandings[name].cuts, v) <= Reached(Bandings[name].cuts, w)
    ensures name !in Bandings && name != "Sex" ==> InterpretFeature(name, v) == "Unknown"
    ensures name == "Sex" ==> InterpretFeature(name, v) == (if v == 0.0 then "Female" else "Male")
  {
    if name in Bandings {
      var b := Bandings[name];
      if v <= w { ReachedMonotone(b.cuts, v, w); }
      if name == "Resting Blood Pressure" {
        var c := b.cuts;
        assert c[1..] == [130.0, 140.0, 180.0];
        assert c[1..][1..] == [140.0, 180.0];
        ReachedPair(140.0, 180.0, v);
        assert c[1..][1..][1..][1..] == [];
      } else {
        ReachedPair(b.cuts[0], b.cuts[1], v);
        assert b.cuts == [b.cuts[0], b.cuts[1]];
      }
    }
  }

  /** `_get_feature_unit`. */
  const Units: map<string, string> := map[
    "Age" := "years", "Resting Blood Pressure" := "mm Hg", "Cholesterol" := "mg/dL",
    "Maximum Heart Rate" := "bpm", "ST Depression" := "mm"]

  function FeatureUnit(name: string): (u: string)
    ensures u == "" <==> name !in Units
    ensures name in Units ==> u == Units[name]
  {
    if name in Units then Units[name] else ""
  }

  // ---------------------------------------------------------------------
  // API responses
  // ---------------------------------------------------------------------

  /** A response body: `status` and `timestamp` always, the other keys when
      present. */
  datatype Response<T> = Response(status: string, timestamp: int, data: Option<T>, message: Option<string>, error: Option<string>)

  /** Python truthiness of an optional string. */
  predicate Truthy(s: Option<string>) {
    s.Some? && s.value != ""
  }

  /** `format_response`: `data` is kept whenever it is not `None`, even
      when falsy, while an empty message or error is dropped. */
  function FormatResponse<T>(status: string, data: Option<T>, message: Option<string>, error: Option<string>, now: int): (r: Response<T>)
    ensures r.status == status && r.timestamp == now && r.data == data
    ensures r.message.Some? <==> Truthy(message)
    ensures r.message.Some? ==> r.message == message
    ensures r.error.Some? <==> Truthy(error)
    ensures r.error.Some? ==> r.error == error
  {
    Response(status, now, data,
      if Truthy(message) then message else None,
      if Truthy(error) then error else None)
  }

  /** The keys of a response, in insertion order. */
  function ResponseKeys<T>(r: Response<T>): seq<string> {
    ["status", "timestamp"] + (if r.data.Some? then ["data"] else []) +
    (if r.message.Some? then ["message"] else []) + (if r.error.Some? then ["error"] else [])
  }

  /** A response always starts with `status` and `timestamp`, names each
      key at most once, and has between two and five keys. */
  lemma {:induction false} ResponseShape<T>(status: string, data: Option<T>, message: Option<string>, error: Option<string>, now: int)
    ensures var keys := ResponseKeys(FormatResponse(status, data, message, error, now));
      2 <= |keys| <= 5 && keys[..2] == ["status", "timestamp"] &&
      (forall i, j :: 0 <= i < j < |keys| ==> keys[i] != keys[j]) &&
      ("message" in keys <==> Truthy(message)) && ("data" in keys <==> data.Some?)
  {
    var r := FormatResponse(status, data, message, error, now);
    var keys := ResponseKeys(r);
    var tail := (if r.data.Some? then ["data"] else []) +
      (if r.message.Some? then ["message"] else []) + (if r.error.Some? then ["error"] else []);
    assert keys == ["status", "timestamp"] + tail;
    assert forall i :: 0 <= i < |tail| ==> tail[i] in ["data", "message", "error"];
  }
}
