/**
 * The prediction service (backend/services/prediction_service.py): five
 * named models, some of which may have failed to load, the bookkeeping of
 * `predict` (every call is counted first; each exception counts as a
 * failure), the banding of the disease probability and the confidence of a
 * prediction.
 *
 * A trained classifier is an oracle: `classify(key, scaled)` gives the
 * class probabilities and the predicted label of the model stored under
 * `key`. Whether a model file loads is the predicate `loadable`; the wall
 * clock is the parameter `now`. The service's scaler is the default
 * `DataScaler`, never fitted here, so inputs are scaled by
 * `Transform(InitialRanges(), FeatureNames, ·)`.
 */
module Prediction {
  import opened Common
  import Scaler
  import Helpers

  const Federated: string := "federated"

  /** The keys of `models`, in their order. */
  const ModelNames: seq<string> := ["centralized", "federated", "athletic", "diver", "typical"]

  /** What a classifier answers for one scaled feature vector. */
  datatype Classification = Classification(probabilities: seq<real>, predictedClass: int)

  /** `prediction_stats`. */
  datatype Stats = Stats(total: nat, successful: nat, failed: nat, lastPredictionTime: Option<int>, usage: map<string, nat>)

  /** The service's state: which models loaded, the feature names and the
      statistics. */
  datatype ServiceState = ServiceState(models: map<string, bool>, featureNames: seq<string>, stats: Stats)

  /** The exceptions `predict` counts as failures before re-raising. */
  datatype PredictionError =
    | FeatureCountMismatch(expected: nat, got: nat)
    | NoDefaultModel
    | ModelNotLoaded(modelType: string)
    | MalformedProbabilities
    | UnknownModelUsage(modelType: string)

  datatype PredictionResult = PredictionResult(
    patientId: Option<string>, prediction: int, probability: real, riskLevel: string,
    confidence: real, modelUsed: string, timestamp: int, featuresUsed: seq<string>)

  /** The state after `__init__`: each model loaded or not, the configured
      feature names or the thirteen defaults, and zeroed statistics with a
      usage counter per model. */
  function InitialService(loadable: string -> bool, configuredNames: Option<seq<string>>): (s: ServiceState)
    ensures s.models.Keys == set name | name in ModelNames
    ensures WellFormed(s) && Balanced(s.stats) && s.stats.total == 0
  {
    var models := map[
      "centralized" := loadable("centralized"), "federated" := loadable("federated"),
      "athletic" := loadable("athletic"), "diver" := loadable("diver"), "typical" := loadable("typical")];
    var usage := map["centralized" := 0, "federated" := 0, "athletic" := 0, "diver" := 0, "typical" := 0];
    ServiceState(models, configuredNames.GetOr(Scaler.FeatureNames), Stats(0, 0, 0, None, usage))
  }

  /** The default model exists and every model has a usage counter. */
  predicate WellFormed(s: ServiceState) {
    Federated in s.models && s.stats.usage.Keys == s.models.Keys
  }

  /** No call is counted as neither a success nor a failure. */
  predicate Balanced(stats: Stats) {
    stats.total <= stats.successful + stats.failed
  }

  /** `self.models.get(model_type, self.models['federated'])`, by key. */
  function Resolve(models: map<string, bool>, modelType: string): string {
    if modelType in models then modelType else Federated
  }

  /** `_interpret_prediction`: the band of P(class 1). */
  function InterpretPrediction(probabilities: seq<real>): string
    requires |probabilities| >= 2
  {
    Helpers.RiskLevels[Helpers.BandIndex(probabilities[1])]
  }

  /** `_calculate_confidence`: the largest probability as a percentage,
      rounded to two places. */
  function Confidence(probabilities: seq<real>): real
    requires |probabilities| > 0
  {
    RoundTo(MaxOf(probabilities) * 100.0, 2)
  }

  function Fail(s: ServiceState, stats: Stats, e: PredictionError): (ServiceState, Result<PredictionResult, PredictionError>) {
    (s.(stats := stats.(failed := stats.failed + 1)), Failure(e))
  }

  /** `predict`. */
  function PredictCall(
    s: ServiceState, classify: (string, seq<real>) -> Classification,
    features: seq<real>, patientId: Option<string>, modelType: string, now: int)
    : (ServiceState, Result<PredictionResult, PredictionError>)
  {
    var counted := s.stats.(total := s.stats.total + 1);
    if |features| != |s.featureNames| then Fail(s, counted, FeatureCountMismatch(|s.featureNames|, |features|))
    else if Federated !in s.models then Fail(s, counted, NoDefaultModel)
    else
      var key := Resolve(s.models, modelType);
      if !s.models[key] then Fail(s, counted, ModelNotLoaded(modelType))
      else
        var c := classify(key, Scaler.Transform(Scaler.InitialRanges(), Scaler.FeatureNames, features));
        if |c.probabilities| < 2 then Fail(s, counted, MalformedProbabilities)
        else
          var succeeded := counted.(successful := counted.successful + 1);
          if modelType !in s.stats.usage then Fail(s, succeeded, UnknownModelUsage(modelType))
          else
            var stats := succeeded.(usage := s.stats.usage[modelType := s.stats.usage[modelType] + 1], lastPredictionTime := Some(now));
            (s.(stats := stats), Success(PredictionResult(
              patientId, c.predictedClass, c.probabilities[1], InterpretPrediction(c.probabilities),
              Confidence(c.probabilities), modelType, now, s.featureNames)))
  }

  /** Every call raises the total by one, before anything can fail; a
      success raises `successful` and the model's usage and stamps the time;
      a failure raises `failed`, and only an unknown model type raises
      `successful` as well. Models and feature names never change. */
  lemma {:induction false} PredictCounts(
    s: ServiceState, classify: (string, seq<real>) -> Classification,
    features: seq<real>, patientId: Option<string>, modelType: string, now: int)
    ensures var r := PredictCall(s, classify, features, patientId, modelType, now);
      r.0.models == s.models && r.0.featureNames == s.featureNames &&
      r.0.stats.total == s.stats.total + 1 &&
      (r.1.Success? ==> (r.0.stats.successful == s.stats.successful + 1 && r.0.stats.failed == s.stats.failed &&
        modelType in s.stats.usage && r.0.stats.usage == s.stats.usage[modelType := s.stats.usage[modelType] + 1] &&
        r.0.stats.lastPredictionTime == Some(now))) &&
      (r.1.Failure? ==> (r.0.stats.failed == s.stats.failed + 1 && r.0.stats.usage == s.stats.usage &&
        r.0.stats.lastPredictionTime == s.stats.lastPredictionTime &&
        r.0.stats.successful == s.stats.successful + (if r.1.error.UnknownModelUsage? then 1 else 0)))
  {
  }

  /** The statistics stay balanced and the state well formed; the total
      falls behind successes plus failures exactly on the calls that
      fail with an unknown model type. */
  lemma {:induction false} PredictKeepsInvariants(
    s: ServiceState, classify: (string, seq<real>) -> Classification,
    features: seq<real>, patientId: Option<string>, modelType: string, now: int)
    requires WellFormed(s) && Balanced(s.stats)
    ensures var r := PredictCall(s, classify, features, patientId, modelType, now);
      WellFormed(r.0) && Balanced(r.0.stats) &&
      (r.0.stats.successful + r.0.stats.failed - r.0.stats.total ==
        s.stats.successful + s.stats.failed - s.stats.total + (if r.1.Failure? && r.1.error.UnknownModelUsage? then 1 else 0))
  {
    PredictCounts(s, classify, features, patientId, modelType, now);
  }

  /** A request for a model type the service does not have runs on the
      federated model, is counted as a success, and then fails on its usage
      counter, so it is counted as a failure too. */
  lemma {:induction false} UnknownModelTypeCountsTwice(
    s: ServiceState, classify: (string, seq<real>) -> Classification,
    features: seq<real>, patientId: Option<string>, modelType: string, now: int)
    requires WellFormed(s) && modelType !in s.models && s.models[Federated]
    requires |features| == |s.featureNames|
    requires |classify(Federated, Scaler.Transform(Scaler.InitialRanges(), Scaler.FeatureNames, features)).probabilities| >= 2
    ensures var r := PredictCall(s, classify, features, patientId, modelType, now);
      r.1 == Failure(UnknownModelUsage(modelType)) &&
      r.0.stats.successful == s.stats.successful + 1 && r.0.stats.failed == s.stats.failed + 1
  {
  }

  /** A successful prediction reports the probability of disease, its
      band, the confidence and the model asked for. */
  lemma {:induction false} SuccessfulPrediction(
    s: ServiceState, classify: (string, seq<real>) -> Classification,
    features: seq<real>, patientId: Option<string>, modelType: string, now: int)
    requires WellFormed(s)
    requires PredictCall(s, classify, features, patientId, modelType, now).1.Success?
    ensures var out := PredictCall(s, classify, features, patientId, modelType, now).1.value;
      var c := classify(modelType, Scaler.Transform(Scaler.InitialRanges(), Scaler.FeatureNames, features));
      modelType in s.models && s.models[modelType] && |features| == |s.featureNames| && |c.probabilities| >= 2 &&
      out.probability == c.probabilities[1] && out.prediction == c.predictedClass &&
      out.riskLevel == Helpers.RiskLevels[Helpers.BandIndex(c.probabilities[1])] &&
      out.confidence == Confidence(c.probabilities) && out.modelUsed == modelType &&
      out.featuresUsed == s.featureNames && out.patientId == patientId && out.timestamp == now
  {
  }

  /** The confidence is within half a hundredth of the largest probability
      as a percentage; with probabilities in [0, 1] it lies in [0, 100],
      and with two probabilities summing to one it is at least 50. */
  lemma {:induction false} ConfidenceBounds(probabilities: seq<real>)
    requires |probabilities| > 0
    ensures var m := MaxOf(probabilities) * 100.0;
      m - 0.005 <= Confidence(probabilities) <= m + 0.005
    ensures (forall i :: 0 <= i < |probabilities| ==> 0.0 <= probabilities[i] <= 1.0) ==>
      0.0 <= Confidence(probabilities) <= 100.0
    ensures |probabilities| == 2 && probabilities[0] + probabilities[1] == 1.0 ==>
      50.0 <= Confidence(probabilities)
  {
    var x := MaxOf(probabilities) * 100.0;
    assert Pow10(2) == 100.0 by {
      assert Pow10(1) == 10.0 * Pow10(0);
    }
    var n := RoundHalfEven(x * 100.0);
    assert Confidence(probabilities) == n as real / 100.0;
    if forall i :: 0 <= i < |probabilities| ==> 0.0 <= probabilities[i] <= 1.0 {
      assert 0.0 <= x <= 100.0;
      assert 0 <= n <= 10000;
    }
    if |probabilities| == 2 && probabilities[0] + probabilities[1] == 1.0 {
      assert MaxOf(probabilities) >= 0.5;
      assert n >= 5000;
    }
  }

  /** `models_loaded`. */
  predicate ModelsLoaded(models: map<string, bool>) {
    forall name :: name in models ==> models[name]
  }

  /** `is_ready`. */
  predicate IsReady(models: map<string, bool>) {
    |models| > 0 && ModelsLoaded(models)
  }

  /** A ready service never refuses a request for a model that is not
      loaded, whatever the model type; a service with an unloaded model
      refuses the requests that name it. */
  lemma {:induction false} ReadinessDecidesModelErrors(
    s: ServiceState, classify: (string, seq<real>) -> Classification,
    features: seq<real>, patientId: Option<string>, modelType: string, now: int)
    requires WellFormed(s)
    ensures IsReady(s.models) ==>
      PredictCall(s, classify, features, patientId, modelType, now).1 != Failure(ModelNotLoaded(modelType))
    ensures modelType in s.models && !s.models[modelType] && |features| == |s.featureNames| ==>
      !IsReady(s.models) &&
      PredictCall(s, classify, features, patientId, modelType, now).1 == Failure(ModelNotLoaded(modelType))
  {
  }

  class PredictionService {
    var models: map<string, bool>
    var featureNames: seq<string>
    var stats: Stats

    function Snapshot(): ServiceState
      reads this
    {
      ServiceState(models, featureNames, stats)
    }

    /** `__init__`, with model loading and the feature configuration as
        parameters. */
    constructor(loadable: string -> bool, configuredNames: Option<seq<string>>)
      ensures Snapshot() == InitialService(loadable, configuredNames)
    {
      models := map[
        "centralized" := loadable("centralized"), "federated" := loadable("federated"),
        "athletic" := loadable("athletic"), "diver" := loadable("diver"), "typical" := loadable("typical")];
      featureNames := if configuredNames.Some? then configuredNames.value else Scaler.FeatureNames;
      stats := Stats(0, 0, 0, None, map["centralized" := 0, "federated" := 0, "athletic" := 0, "diver" := 0, "typical" := 0]);
    }

    /** `predict`: the counters are updated in place as the call proceeds. */
    method Predict(
      classify: (string, seq<real>) -> Classification,
      features: seq<real>, patientId: Option<string>, modelType: string, now: int)
      returns (out: Result<PredictionResult, PredictionError>)
      modifies this
      ensures (Snapshot(), out) == PredictCall(old(Snapshot()), classify, features, patientId, modelType, now)
    {
      stats := stats.(total := stats.total + 1);
      if |features| != |featureNames| {
        stats := stats.(failed := stats.failed + 1);
        return Failure(FeatureCountMismatch(|featureNames|, |features|));
      }
      var scaled := Scaler.Transform(Scaler.InitialRanges(), Scaler.FeatureNames, features);
      if Federated !in models {
        stats := stats.(failed := stats.failed + 1);
        return Failure(NoDefaultModel);
      }
      var key := if modelType in models then modelType else Federated;
      if !models[key] {
        stats := stats.(failed := stats.failed + 1);
        return Failure(ModelNotLoaded(modelType));
      }
      var c := classify(key, scaled);
      if |c.probabilities| < 2 {
        stats := stats.(failed := stats.failed + 1);
        return Failure(MalformedProbabilities);
      }
      var riskLevel := InterpretPrediction(c.probabilities);
      stats := stats.(successful := stats.successful + 1);
      if modelType !in stats.usage {
        stats := stats.(failed := stats.failed + 1);
        return Failure(UnknownModelUsage(modelType));
      }
      stats := stats.(usage := stats.usage[modelType := stats.usage[modelType] + 1]);
      stats := stats.(lastPredictionTime := Some(now));
      out := Success(PredictionResult(
        patientId, c.predictedClass, c.probabilities[1], riskLevel,
        Confidence(c.probabilities), modelType, now, featureNames));
    }
  }
}
