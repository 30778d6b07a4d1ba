/**
 * The model swapper (backend/services/model_swapper.py): a fixed table from
 * drift type to specialised model, the per-patient assignment of the active
 * model (`federated` until a swap succeeds), a log of the last 100 swaps per
 * patient, and the threshold rule that suggests a model from a feature
 * vector.
 *
 * Whether a specialised model can be loaded (the pickle file exists and
 * unpickles to a model) is the predicate `available`; the wall clock is the
 * parameter `now`; `np.std` is the function `std`. The swapper's state is
 * the value `SwapperState`, the functions `Swap` and `Track` say what the
 * calls do to it, and the class `ModelSwapper` holds the same state in
 * fields and follows those functions.
 */
module Swapper {
  import opened Common

  /** The model every patient uses until a swap succeeds. */
  const Federated: string := "federated"
  const Typical: string := "typical"
  /** Swaps kept per patient. */
  const SwapLogCap: nat := 100

  /** The keys of `specialized_models`. */
  const SpecializedModels: seq<string> := ["athletic", "diver", "typical", "elderly", "diabetic"]

  /** `drift_to_model`. */
  const DriftToModel: map<string, string> := map[
    "athletic" := "athletic", "diver" := "diver", "revert_to_normal" := "typical",
    "elderly" := "elderly", "diabetic" := "diabetic", "hypertensive" := "typical"]

  /** `_select_target_model`: the table's entry, `typical` for an unlisted
      drift type, and `typical` again for a target that is not a specialised
      model. The confidence takes no part. */
  function SelectTargetModel(driftType: string, confidence: real): string {
    var target := if driftType in DriftToModel then DriftToModel[driftType] else Typical;
    if target !in SpecializedModels then Typical else target
  }

  /** The selection is always a specialised model, follows the table and
      ignores the confidence. */
  lemma {:induction false} SelectionTable(driftType: string, confidence: real)
    ensures SelectTargetModel(driftType, confidence) in SpecializedModels
    ensures SelectTargetModel(driftType, confidence) == SelectTargetModel(driftType, 0.0)
    ensures driftType in {"athletic", "diver", "elderly", "diabetic"} ==> SelectTargetModel(driftType, confidence) == driftType
    ensures driftType !in {"athletic", "diver", "elderly", "diabetic"} ==> SelectTargetModel(driftType, confidence) == Typical
  {
  }

  /** `_load_model` succeeds: the type is a specialised model and its file
      loads. */
  predicate Loads(available: string -> bool, modelType: string) {
    modelType in SpecializedModels && available(modelType)
  }

  // ---------------------------------------------------------------------
  // The swapper's state
  // ---------------------------------------------------------------------

  /** One `model_performance` entry. */
  datatype SwapEntry = SwapEntry(modelType: string, timestamp: int, swapCount: nat)

  /** `patient_models` and `model_performance`. */
  datatype SwapperState = SwapperState(patientModels: map<string, string>, performance: map<string, seq<SwapEntry>>)

  /** What `swap_model` returns (the metadata entry is not modelled). */
  datatype SwapOutcome =
    | Swapped(patientId: string, previousModel: string, newModel: string, driftType: string, confidence: real, timestamp: int)
    | SwapFailed(patientId: string, unavailable: string, timestamp: int)

  const InitialSwapper: SwapperState := SwapperState(map[], map[])

  /** `get_active_model`. */
  function ActiveModel(s: SwapperState, id: string): string {
    if id in s.patientModels then s.patientModels[id] else Federated
  }

  /** `get_patient_model_history`. */
  function SwapLog(s: SwapperState, id: string): seq<SwapEntry> {
    if id in s.performance then s.performance[id] else []
  }

  /** `_update_performance_tracking`: append an entry numbered one past the
      log's length, then keep the last 100. */
  function Track(s: SwapperState, id: string, modelType: string, now: int): SwapperState {
    var log := SwapLog(s, id);
    var grown := log + [SwapEntry(modelType, now, |log| + 1)];
    s.(performance := s.performance[id := if |grown| > SwapLogCap then grown[|grown| - SwapLogCap..] else grown])
  }

  /** `swap_model`. */
  function Swap(s: SwapperState, available: string -> bool, id: string, driftType: string, confidence: real, now: int): (SwapperState, SwapOutcome) {
    var target := SelectTargetModel(driftType, confidence);
    if !Loads(available, target) then (s, SwapFailed(id, target, now))
    else
      var previous := ActiveModel(s, id);
      var s1 := s.(patientModels := s.patientModels[id := target]);
      (Track(s1, id, target, now), Swapped(id, previous, target, driftType, confidence, now))
  }

  /** A model that cannot be loaded fails the swap and changes nothing. */
  lemma {:induction false} FailedSwapChangesNothing(s: SwapperState, available: string -> bool, id: string, driftType: string, confidence: real, now: int)
    requires !available(SelectTargetModel(driftType, confidence))
    ensures Swap(s, available, id, driftType, confidence, now) == (s, SwapFailed(id, SelectTargetModel(driftType, confidence), now))
  {
  }

  /** A successful swap reports the prior model (`federated` for a new
      patient) and assigns the target, which `get_active_model` then returns;
      no other patient's model or log changes. */
  lemma {:induction false} SuccessfulSwap(s: SwapperState, available: string -> bool, id: string, driftType: string, confidence: real, now: int)
    requires available(SelectTargetModel(driftType, confidence))
    ensures var (s', out) := Swap(s, available, id, driftType, confidence, now);
      var target := SelectTargetModel(driftType, confidence);
      out.Swapped? && out.previousModel == ActiveModel(s, id) && out.newModel == target &&
      ActiveModel(s', id) == target &&
      (forall other :: other != id ==> ActiveModel(s', other) == ActiveModel(s, other) && SwapLog(s', other) == SwapLog(s, other))
  {
    SelectionTable(driftType, confidence);
  }

  /** A patient never swapped uses the federated model. */
  lemma {:induction false} UnknownPatientIsFederated(id: string)
    ensures ActiveModel(InitialSwapper, id) == Federated && SwapLog(InitialSwapper, id) == []
  {
  }

  /** Each tracked swap adds one entry numbered one past the old log's length,
      the log keeps at most 100 entries, and it is the old log plus the new
      entry with the oldest dropped once it overflows. */
  lemma {:induction false} TrackAppends(s: SwapperState, id: string, modelType: string, now: int)
    requires |SwapLog(s, id)| <= SwapLogCap
    ensures var log := SwapLog(s, id);
      var log' := SwapLog(Track(s, id, modelType, now), id);
      0 < |log'| <= SwapLogCap && log'[|log'| - 1] == SwapEntry(modelType, now, |log| + 1) &&
      (|log| < SwapLogCap ==> log' == log + [SwapEntry(modelType, now, |log| + 1)]) &&
      (|log| == SwapLogCap ==> log' == log[1..] + [SwapEntry(modelType, now, |log| + 1)])
  {
    var log := SwapLog(s, id);
    var grown := log + [SwapEntry(modelType, now, |log| + 1)];
    if |log| == SwapLogCap {
      assert grown[|grown| - SwapLogCap..] == log[1..] + [SwapEntry(modelType, now, |log| + 1)];
    }
  }

  /** Once a patient has 100 logged swaps, every further swap is numbered
      101: the number counts the kept entries, not the swaps made. */
  lemma {:induction false} SwapCountSaturates(s: SwapperState, id: string, modelType: string, now: int)
    requires |SwapLog(s, id)| == SwapLogCap
    ensures var log' := SwapLog(Track(s, id, modelType, now), id);
      |log'| == SwapLogCap && log'[|log'| - 1].swapCount == SwapLogCap + 1
  {
    TrackAppends(s, id, modelType, now);
  }

  // ---------------------------------------------------------------------
  // Suggesting a model from a feature vector
  // ---------------------------------------------------------------------

  /** `drift_thresholds`, in dict order. */
  const DriftThresholds: seq<(string, seq<(string, real)>)> := [
    ("athletic", [("heart_rate_var", 0.3), ("activity_level", 0.7)]),
    ("diver", [("oxygen_saturation", 0.25), ("pressure_changes", 0.6)]),
    ("typical", [("stability_score", 0.8)])]

  /** Some threshold whose key the pattern has is strictly exceeded. */
  predicate Exceeds(pattern: map<string, real>, thresholds: seq<(string, real)>) {
    exists i :: 0 <= i < |thresholds| && thresholds[i].0 in pattern && pattern[thresholds[i].0] > thresholds[i].1
  }

  /** `_analyze_feature_pattern`. Indexing position 7 of a shorter vector
      raises (`None`). `stability_score` is left out when the mean of the
      first five values is zero: numpy then yields an infinity or a NaN,
      neither of which exceeds a threshold, exactly like an absent key. */
  function AnalyzeFeaturePattern(features: seq<real>, std: seq<real> -> real): Option<map<string, real>> {
    if |features| <= 7 then None
    else
      var hr := features[7] - 72.0;
      var hrVar := (if hr < 0.0 then -hr else hr) / 72.0;
      var activity := if |features| > 8 then features[8] else 0.5;
      var first := features[..5];
      var pattern := map["heart_rate_var" := hrVar, "activity_level" := activity];
      Some(if Mean(first) == 0.0 then pattern else pattern["stability_score" := 1.0 - std(first) / Mean(first)])
  }

  /** The first drift type, in dict order, whose thresholds the pattern
      exceeds. */
  function FirstExceeded(pattern: map<string, real>, table: seq<(string, seq<(string, real)>)>): Option<string> {
    if |table| == 0 then None
    else if Exceeds(pattern, table[0].1) then Some(table[0].0)
    else FirstExceeded(pattern, table[1..])
  }

  /** `suggest_model_improvement`: a failed analysis suggests nothing. */
  function Suggestion(features: seq<real>, std: seq<real> -> real): Option<string> {
    match AnalyzeFeaturePattern(features, std)
    case None => None
    case Some(pattern) => FirstExceeded(pattern, DriftThresholds)
  }

  /** The suggestion is the first listed type whose thresholds are exceeded:
      it is exceeded, and no earlier one is; with none exceeded there is no
      suggestion. */
  lemma {:induction false} FirstExceededIsFirst(pattern: map<string, real>, table: seq<(string, seq<(string, real)>)>)
    ensures var r := FirstExceeded(pattern, table);
      (r.None? <==> forall i :: 0 <= i < |table| ==> !Exceeds(pattern, table[i].1)) &&
      (r.Some? ==> exists k :: 0 <= k < |table| && table[k].0 == r.value && Exceeds(pattern, table[k].1) &&
                     forall i :: 0 <= i < k ==> !Exceeds(pattern, table[i].1))
  {
    if |table| > 0 {
      FirstExceededIsFirst(pattern, table[1..]);
      var r := FirstExceeded(pattern, table);
      if !Exceeds(pattern, table[0].1) {
        assert forall i :: 1 <= i < |table| ==> table[i] == table[1..][i - 1];
        if r.Some? {
          var k :| 0 <= k < |table[1..]| && table[1..][k].0 == r.value && Exceeds(pattern, table[1..][k].1) &&
                   forall i :: 0 <= i < k ==> !Exceeds(pattern, table[1..][i].1);
          assert table[k + 1] == table[1..][k];
          assert forall i :: 0 <= i < k + 1 ==> !Exceeds(pattern, table[i].1) by {
            forall i | 0 <= i < k + 1
              ensures !Exceeds(pattern, table[i].1)
            {
              if i > 0 {
                assert table[i] == table[1..][i - 1];
              }
            }
          }
        }
      }
    }
  }

  /** The analysed pattern never holds the keys of the `diver` thresholds, so
      `diver` is never suggested. */
  lemma {:induction false} DiverNeverSuggested(features: seq<real>, std: seq<real> -> real)
    ensures Suggestion(features, std) != Some("diver")
  {
    var p := AnalyzeFeaturePattern(features, std);
    if p.Some? {
      var pattern := p.value;
      assert "oxygen_saturation" !in pattern && "pressure_changes" !in pattern;
      var rest := DriftThresholds[1..];
      assert !Exceeds(pattern, rest[0].1);
      assert FirstExceeded(pattern, rest[1..]) != Some("diver") by {
        assert rest[1..][0].0 == "typical" && rest[1..][1..] == [];
      }
      assert FirstExceeded(pattern, rest) == FirstExceeded(pattern, rest[1..]);
      assert DriftThresholds[0].0 == "athletic";
      assert Suggestion(features, std) == FirstExceeded(pattern, DriftThresholds);
    }
  }

  /** A vector of at most seven values suggests nothing; a heart rate (value
      7) more than 30% away from 72 suggests `athletic`. */
  lemma {:induction false} SuggestionExamples(features: seq<real>, std: seq<real> -> real)
    ensures |features| <= 7 ==> Suggestion(features, std) == None
    ensures |features| > 7 && (features[7] > 93.6 || features[7] < 50.4) ==> Suggestion(features, std) == Some("athletic")
  {
    if |features| > 7 && (features[7] > 93.6 || features[7] < 50.4) {
      var pattern := AnalyzeFeaturePattern(features, std).value;
      assert pattern["heart_rate_var"] > 0.3;
      assert DriftThresholds[0].1[0] == ("heart_rate_var", 0.3);
      assert Exceeds(pattern, DriftThresholds[0].1);
    }
  }

  // ---------------------------------------------------------------------
  // The swapper object
  // ---------------------------------------------------------------------

  /** `ModelSwapper`. */
  class ModelSwapper {
    var patientModels: map<string, string>
    var performance: map<string, seq<SwapEntry>>

    function Snapshot(): SwapperState
      reads this
    {
      SwapperState(patientModels, performance)
    }

    constructor()
      ensures Snapshot() == InitialSwapper
    {
      patientModels := map[];
      performance := map[];
    }

    /** `swap_model`. */
    method SwapModel(available: string -> bool, id: string, driftType: string, confidence: real, now: int) returns (out: SwapOutcome)
      modifies this
      ensures (Snapshot(), out) == Swap(old(Snapshot()), available, id, driftType, confidence, now)
    {
      var target := SelectTargetModel(driftType, confidence);
      if !(target in SpecializedModels && available(target)) {
        return SwapFailed(id, target, now);
      }
      var previous := if id in patientModels then patientModels[id] else Federated;
      patientModels := patientModels[id := target];
      UpdatePerformanceTracking(id, target, now);
      out := Swapped(id, previous, target, driftType, confidence, now);
    }

    /** `_update_performance_tracking`. */
    method UpdatePerformanceTracking(id: string, modelType: string, now: int)
      modifies this
      ensures Snapshot() == Track(old(Snapshot()), id, modelType, now)
    {
      if id !in performance {
        performance := performance[id := []];
      }
      var log := performance[id];
      log := log + [SwapEntry(modelType, now, |log| + 1)];
      if |log| > SwapLogCap {
        log := log[|log| - SwapLogCap..];
      }
      performance := performance[id := log];
    }

    /** `get_all_active_models`: the assignments as a value, which no later
        swap can change. */
    method GetAllActiveModels() returns (m: map<string, string>)
      ensures m == patientModels
      ensures forall id :: id in m ==> ActiveModel(Snapshot(), id) == m[id]
      ensures forall id :: id !in m ==> ActiveModel(Snapshot(), id) == Federated
    {
      m := patientModels;
    }
  }

  /** `_check_drift_thresholds`: the first threshold exceeded ends the scan. */
  method CheckDriftThresholds(pattern: map<string, real>, thresholds: seq<(string, real)>) returns (b: bool)
    ensures b == Exceeds(pattern, thresholds)
  {
    for i := 0 to |thresholds|
      invariant forall j :: 0 <= j < i ==> !(thresholds[j].0 in pattern && pattern[thresholds[j].0] > thresholds[j].1)
    {
      var (key, threshold) := thresholds[i];
      if key in pattern && pattern[key] > threshold {
        assert thresholds[i].0 in pattern && pattern[thresholds[i].0] > thresholds[i].1;
        return true;
      }
    }
    return false;
  }

  /** `suggest_model_improvement`. */
  method SuggestModelImprovement(features: seq<real>, std: seq<real> -> real) returns (r: Option<string>)
    ensures r == Suggestion(features, std)
  {
    var analysed := AnalyzeFeaturePattern(features, std);
    if analysed.None? {
      return None;
    }
    var pattern := analysed.value;
    for k := 0 to |DriftThresholds|
      invariant FirstExceeded(pattern, DriftThresholds) == FirstExceeded(pattern, DriftThresholds[k..])
    {
      var exceeded := CheckDriftThresholds(pattern, DriftThresholds[k].1);
      if exceeded {
        return Some(DriftThresholds[k].0);
      }
      assert DriftThresholds[k..][1..] == DriftThresholds[k + 1..];
    }
    return None;
  }
}
