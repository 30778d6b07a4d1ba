/**
 * The feature scaler (backend/utils/scaler.py): a fixed table of thirteen
 * heart-disease features, each scaled by min-max into [0, 1], by
 * standardisation, or not at all; `fit` learns the column minimum and
 * maximum of min-max features from a matrix, and `inverse_transform` undoes
 * the scaling.
 *
 * One entry of `feature_ranges` is the value `Range`; the matrix given to
 * `fit` is a sequence of rows, all of the width `width` (`X.shape[1]`).
 * `Transform`, `InverseTransform` and `Fitted` say what the calls compute,
 * and the class `DataScaler` holds the same state in fields and follows
 * them.
 */
module Scaler {
  import opened Common

  /** One entry of `feature_configs`: configured bounds (absent for the
      categorical features) and the scaler's name. */
  datatype FeatureConfig = FeatureConfig(min: Option<real>, max: Option<real>, scaler: string)

  /** The keys of `feature_configs`, in their order. */
  const FeatureNames: seq<string> := [
    "age", "sex", "chest_pain_type", "resting_bp", "cholesterol",
    "fasting_blood_sugar", "resting_ecg", "max_heart_rate",
    "exercise_induced_angina", "oldpeak", "slope", "num_major_vessels",
    "thalassemia"]

  function MinMax(lo: real, hi: real): FeatureConfig {
    FeatureConfig(Some(lo), Some(hi), "minmax")
  }

  /** A categorical 0/1 feature, passed through unscaled. */
  const Categorical: FeatureConfig := FeatureConfig(None, None, "none")

  /** `feature_configs`. */
  const Configs: map<string, FeatureConfig> := map[
    "age" := MinMax(29.0, 77.0),
    "sex" := Categorical,
    "chest_pain_type" := MinMax(0.0, 3.0),
    "resting_bp" := MinMax(94.0, 200.0),
    "cholesterol" := MinMax(126.0, 564.0),
    "fasting_blood_sugar" := Categorical,
    "resting_ecg" := MinMax(0.0, 2.0),
    "max_heart_rate" := MinMax(71.0, 202.0),
    "exercise_induced_angina" := Categorical,
    "oldpeak" := MinMax(0.0, 6.2),
    "slope" := MinMax(0.0, 2.0),
    "num_major_vessels" := MinMax(0.0, 3.0),
    "thalassemia" := MinMax(0.0, 3.0)]

  /** One entry of `feature_ranges`: the bounds and scaler copied from the
      configuration, and the statistics `fit` may add to it. */
  datatype Range = Range(
    min: real, max: real, scaler: string,
    dataMin: Option<real>, dataMax: Option<real>,
    mean: Option<real>, std: Option<real>)

  /** What `.get` reads from the empty dictionary that stands in for a
      feature without an entry: min-max over [0, 1]. */
  const Unconfigured: Range := Range(0.0, 1.0, "minmax", None, None, None, None)

  /** The entry `_initialize_scalers` makes from a configuration. */
  function InitialRange(c: FeatureConfig): Range {
    Range(c.min.GetOr(0.0), c.max.GetOr(1.0), c.scaler, None, None, None, None)
  }

  /** The entries `_initialize_scalers` makes for the given configured
      names, one per name. */
  function RangesFor(names: seq<string>): map<string, Range>
    requires forall i :: 0 <= i < |names| ==> names[i] in Configs
  {
    if names == [] then map[]
    else
      var k := |names| - 1;
      RangesFor(names[..k])[names[k] := InitialRange(Configs[names[k]])]
  }

  /** Each name gets an entry, and it is the one made from its
      configuration. */
  lemma {:induction false} RangesForShape(names: seq<string>)
    requires forall i :: 0 <= i < |names| ==> names[i] in Configs
    ensures forall name :: name in RangesFor(names) <==> name in names
    ensures forall name :: name in RangesFor(names) ==> RangesFor(names)[name] == InitialRange(Configs[name])
  {
    if names != [] {
      var k := |names| - 1;
      RangesForShape(names[..k]);
      assert names == names[..k] + [names[k]];
    }
  }

  /** `feature_ranges` after `_initialize_scalers`. */
  function InitialRanges(): (r: map<string, Range>)
    ensures r.Keys == Configs.Keys
    ensures forall name :: name in r ==> r[name] == InitialRange(Configs[name])
  {
    ConfigurationShape();
    RangesForShape(FeatureNames);
    RangesFor(FeatureNames)
  }

  /** The feature names are the configuration's keys, each once, and every
      configured min-max feature has a non-empty range; no feature is
      configured for standardisation, so `fit` never computes a mean or a
      standard deviation. */
  lemma {:induction false} ConfigurationShape()
    ensures |FeatureNames| == 13
    ensures forall i, j :: 0 <= i < j < |FeatureNames| ==> FeatureNames[i] != FeatureNames[j]
    ensures forall i :: 0 <= i < |FeatureNames| ==> FeatureNames[i] in Configs
    ensures forall name :: name in Configs ==> name in FeatureNames
    ensures forall name :: name in Configs ==> Configs[name].scaler != "standard"
    ensures forall name :: name in Configs && Configs[name].scaler == "minmax" ==>
      InitialRange(Configs[name]).min < InitialRange(Configs[name]).max
  {
  }

  /** Every feature name has a configuration. */
  lemma {:induction false} NamesConfigured()
    ensures forall i :: 0 <= i < |FeatureNames| ==> FeatureNames[i] in Configs
  {
    ConfigurationShape();
  }

  // ---------------------------------------------------------------------
  // Scaling one value
  // ---------------------------------------------------------------------

  /** `self.feature_ranges.get(feature_name, {})`. */
  function RangeOf(ranges: map<string, Range>, name: string): Range {
    if name in ranges then ranges[name] else Unconfigured
  }

  /** The bounds min-max scaling uses: the learned ones when both are
      present, the configured ones otherwise. */
  function Bounds(r: Range): (real, real) {
    if r.dataMin.Some? && r.dataMax.Some? then (r.dataMin.value, r.dataMax.value)
    else (r.min, r.max)
  }

  /** Min-max scaling over [lo, hi], 0.0 for an empty range, clipped. */
  function ScaleWith(lo: real, hi: real, v: real): (s: real)
    ensures 0.0 <= s <= 1.0
  {
    Clip(if hi > lo then (v - lo) / (hi - lo) else 0.0, 0.0, 1.0)
  }

  /** One value through `transform`. */
  function ScaleValue(r: Range, v: real): real {
    if r.scaler == "none" then v
    else if r.scaler == "minmax" then ScaleWith(Bounds(r).0, Bounds(r).1, v)
    else if r.scaler == "standard" then
      if r.mean.Some? && r.std.Some? then
        if r.std.value > 0.0 then (v - r.mean.value) / r.std.value else 0.0
      else v
    else v
  }

  /** One value through `inverse_transform`: no guard and no clipping. */
  function UnscaleValue(r: Range, s: real): real {
    if r.scaler == "none" then s
    else if r.scaler == "minmax" then s * (Bounds(r).1 - Bounds(r).0) + Bounds(r).0
    else if r.scaler == "standard" then
      if r.mean.Some? && r.std.Some? then s * r.std.value + r.mean.value else s
    else s
  }

  /** The values for which scaling and unscaling are inverse: min-max over
      a non-empty range with the value inside it, standardisation with a
      positive deviation or without statistics, and every other scaler. */
  predicate RoundTrips(r: Range, v: real) {
    if r.scaler == "none" then true
    else if r.scaler == "minmax" then Bounds(r).0 < Bounds(r).1 && Bounds(r).0 <= v <= Bounds(r).1
    else if r.scaler == "standard" then r.mean.Some? && r.std.Some? ==> r.std.value > 0.0
    else true
  }

  lemma {:induction false} ValueRoundTrip(r: Range, v: real)
    requires RoundTrips(r, v)
    ensures UnscaleValue(r, ScaleValue(r, v)) == v
  {
    if r.scaler == "minmax" {
      var lo, hi := Bounds(r).0, Bounds(r).1;
      UnitRatio(v - lo, hi - lo);
      var q := (v - lo) / (hi - lo);
      assert ScaleValue(r, v) == q;
      assert q * (hi - lo) == v - lo;
    } else if r.scaler == "standard" && r.mean.Some? && r.std.Some? {
      var m, d := r.mean.value, r.std.value;
      assert ScaleValue(r, v) == (v - m) / d;
      assert (v - m) / d * d == v - m;
    }
  }

  // ---------------------------------------------------------------------
  // Scaling a feature vector
  // ---------------------------------------------------------------------

  /** Output position i: 0.0 where the input has no value, else the value
      scaled by the range of the i-th feature name. */
  function Entry(ranges: map<string, Range>, name: string, features: seq<real>, i: nat): real {
    if i >= |features| then 0.0 else ScaleValue(RangeOf(ranges, name), features[i])
  }

  /** `transform`: one value per feature name, appended in order. */
  function Transform(ranges: map<string, Range>, names: seq<string>, features: seq<real>): (r: seq<real>)
    ensures |r| == |names|
  {
    if names == [] then []
    else
      var k := |names| - 1;
      Transform(ranges, names[..k], features) + [Entry(ranges, names[k], features, k)]
  }

  function UnEntry(ranges: map<string, Range>, name: string, scaled: seq<real>, i: nat): real {
    if i >= |scaled| then 0.0 else UnscaleValue(RangeOf(ranges, name), scaled[i])
  }

  /** `inverse_transform`. */
  function InverseTransform(ranges: map<string, Range>, names: seq<string>, scaled: seq<real>): (r: seq<real>)
    ensures |r| == |names|
  {
    if names == [] then []
    else
      var k := |names| - 1;
      InverseTransform(ranges, names[..k], scaled) + [UnEntry(ranges, names[k], scaled, k)]
  }

  lemma {:induction false} TransformAt(ranges: map<string, Range>, names: seq<string>, features: seq<real>)
    ensures forall i :: 0 <= i < |names| ==>
      Transform(ranges, names, features)[i] == Entry(ranges, names[i], features, i)
    decreases |names|
  {
    if names != [] {
      var k := |names| - 1;
      TransformAt(ranges, names[..k], features);
    }
  }

  lemma {:induction false} InverseTransformAt(ranges: map<string, Range>, names: seq<string>, scaled: seq<real>)
    ensures forall i :: 0 <= i < |names| ==>
      InverseTransform(ranges, names, scaled)[i] == UnEntry(ranges, names[i], scaled, i)
    decreases |names|
  {
    if names != [] {
      var k := |names| - 1;
      InverseTransformAt(ranges, names[..k], scaled);
    }
  }

  /** `transform` returns exactly one value per feature name: the missing
      positions are 0.0, and input values past the last name are ignored. */
  lemma {:induction false} TransformShape(ranges: map<string, Range>, names: seq<string>, features: seq<real>)
    ensures |Transform(ranges, names, features)| == |names|
    ensures forall i :: |features| <= i < |names| ==> Transform(ranges, names, features)[i] == 0.0
    ensures |features| >= |names| ==>
      Transform(ranges, names, features) == Transform(ranges, names, features[..|names|])
  {
    TransformAt(ranges, names, features);
    if |features| >= |names| {
      TransformAt(ranges, names, features[..|names|]);
    }
  }

  /** Every min-max feature lands in [0, 1], and one whose bounds are not
      increasing lands on 0.0. */
  lemma {:induction false} MinMaxInUnitInterval(ranges: map<string, Range>, names: seq<string>, features: seq<real>)
    ensures forall i :: 0 <= i < |names| && RangeOf(ranges, names[i]).scaler == "minmax" ==>
      0.0 <= Transform(ranges, names, features)[i] <= 1.0
    ensures forall i :: (0 <= i < |names| && RangeOf(ranges, names[i]).scaler == "minmax" &&
      Bounds(RangeOf(ranges, names[i])).1 <= Bounds(RangeOf(ranges, names[i])).0) ==>
      Transform(ranges, names, features)[i] == 0.0
  {
    TransformAt(ranges, names, features);
  }

  /** A feature whose scaler is `none` passes through both directions
      unchanged. */
  lemma {:induction false} UnscaledPassThrough(ranges: map<string, Range>, names: seq<string>, v: seq<real>)
    ensures forall i :: 0 <= i < |names| && i < |v| && RangeOf(ranges, names[i]).scaler == "none" ==>
      Transform(ranges, names, v)[i] == v[i] && InverseTransform(ranges, names, v)[i] == v[i]
  {
    TransformAt(ranges, names, v);
    InverseTransformAt(ranges, names, v);
  }

  /** Standardisation: (v - mean) / std for a positive deviation, 0.0 for
      any other, and the value itself before statistics exist. */
  lemma {:induction false} StandardScaling(ranges: map<string, Range>, names: seq<string>, v: seq<real>, i: nat)
    requires i < |names| && i < |v|
    requires RangeOf(ranges, names[i]).scaler == "standard"
    ensures var r := RangeOf(ranges, names[i]);
      Transform(ranges, names, v)[i] ==
        if r.mean.None? || r.std.None? then v[i]
        else if r.std.value > 0.0 then (v[i] - r.mean.value) / r.std.value
        else 0.0
  {
    TransformAt(ranges, names, v);
  }

  /** Learned bounds take precedence over the configured ones in both
      directions: once `fit` has recorded them, the configured bounds no
      longer matter. */
  lemma {:induction false} LearnedBoundsTakePrecedence(
    ranges: map<string, Range>, names: seq<string>, v: seq<real>, i: nat, lo: real, hi: real)
    requires i < |names| && names[i] in ranges
    requires ranges[names[i]].dataMin.Some? && ranges[names[i]].dataMax.Some?
    ensures var other := ranges[names[i] := ranges[names[i]].(min := lo, max := hi)];
      Transform(other, names, v)[i] == Transform(ranges, names, v)[i] &&
      InverseTransform(other, names, v)[i] == InverseTransform(ranges, names, v)[i]
  {
    var other := ranges[names[i] := ranges[names[i]].(min := lo, max := hi)];
    TransformAt(ranges, names, v);
    TransformAt(other, names, v);
    InverseTransformAt(ranges, names, v);
    InverseTransformAt(other, names, v);
  }

  /** `inverse_transform(transform(x)) == x` for a vector with one value
      per feature name, each inside the region where its scaler is
      invertible. */
  lemma {:induction false} RoundTrip(ranges: map<string, Range>, names: seq<string>, x: seq<real>)
    requires |x| == |names|
    requires forall i :: 0 <= i < |names| ==> RoundTrips(RangeOf(ranges, names[i]), x[i])
    ensures InverseTransform(ranges, names, Transform(ranges, names, x)) == x
  {
    var t := Transform(ranges, names, x);
    TransformAt(ranges, names, x);
    InverseTransformAt(ranges, names, t);
    forall i | 0 <= i < |names|
      ensures InverseTransform(ranges, names, t)[i] == x[i]
    {
      ValueRoundTrip(RangeOf(ranges, names[i]), x[i]);
    }
  }

  // ---------------------------------------------------------------------
  // Fitting
  // ---------------------------------------------------------------------

  /** Every row of the matrix has `width` columns. */
  predicate Matrix(x: seq<seq<real>>, width: nat) {
    forall r :: 0 <= r < |x| ==> |x[r]| == width
  }

  /** `X[:, i]`. */
  function Column(x: seq<seq<real>>, width: nat, i: nat): (c: seq<real>)
    requires Matrix(x, width) && i < width
    ensures |c| == |x|
  {
    seq(|x|, r requires 0 <= r < |x| => x[r][i])
  }

  /** The entry after `fit` has recorded a column's minimum and maximum. */
  function Learn(r: Range, column: seq<real>): Range
    requires |column| > 0
  {
    r.(dataMin := Some(MinOf(column)), dataMax := Some(MaxOf(column)))
  }

  /** Whether `fit` records statistics for the i-th name: it has a column,
      an entry and a min-max configuration. */
  predicate Learns(ranges: map<string, Range>, names: seq<string>, width: nat, i: nat)
    requires i < |names|
  {
    i < width && names[i] in ranges && names[i] in Configs && Configs[names[i]].scaler == "minmax"
  }

  /** The loop of `fit` from the i-th name on: `None` where `np.min` of an
      empty column raises. */
  function Fitted(ranges: map<string, Range>, names: seq<string>, x: seq<seq<real>>, width: nat, i: nat): Option<map<string, Range>>
    requires Matrix(x, width)
    decreases |names| - i
  {
    if i >= |names| then Some(ranges)
    else if Learns(ranges, names, width, i) then
      if |x| == 0 then None
      else Fitted(ranges[names[i] := Learn(ranges[names[i]], Column(x, width, i))], names, x, width, i + 1)
    else Fitted(ranges, names, x, width, i + 1)
  }

  /** `fit` fails exactly on a matrix without rows that has a column for a
      configured min-max feature, and otherwise keeps the set of entries. */
  lemma {:induction false} FitOutcome(ranges: map<string, Range>, names: seq<string>, x: seq<seq<real>>, width: nat, i: nat)
    requires Matrix(x, width)
    ensures Fitted(ranges, names, x, width, i).None? <==>
      |x| == 0 && exists j :: i <= j < |names| && Learns(ranges, names, width, j)
    ensures Fitted(ranges, names, x, width, i).Some? ==> Fitted(ranges, names, x, width, i).value.Keys == ranges.Keys
    decreases |names| - i
  {
    if i < |names| {
      if Learns(ranges, names, width, i) {
        if |x| > 0 {
          var next := ranges[names[i] := Learn(ranges[names[i]], Column(x, width, i))];
          FitOutcome(next, names, x, width, i + 1);
          assert forall j :: i < j < |names| ==> (Learns(next, names, width, j) <==> Learns(ranges, names, width, j));
        }
      } else {
        FitOutcome(ranges, names, x, width, i + 1);
        assert forall j :: i <= j < |names| && Learns(ranges, names, width, j) ==> i < j;
      }
    }
  }

  /** An entry whose name has no column from the i-th on is left as it
      was: in particular the names past `X.shape[1]`. */
  lemma {:induction false} FitKeepsOthers(
    ranges: map<string, Range>, names: seq<string>, x: seq<seq<real>>, width: nat, i: nat, name: string)
    requires Matrix(x, width) && name in ranges
    requires Fitted(ranges, names, x, width, i).Some?
    requires forall j :: i <= j < |names| && j < width ==> names[j] != name
    ensures name in Fitted(ranges, names, x, width, i).value
    ensures Fitted(ranges, names, x, width, i).value[name] == ranges[name]
    decreases |names| - i
  {
    if i < |names| {
      if Learns(ranges, names, width, i) {
        var next := ranges[names[i] := Learn(ranges[names[i]], Column(x, width, i))];
        FitKeepsOthers(next, names, x, width, i + 1, name);
      } else {
        FitKeepsOthers(ranges, names, x, width, i + 1, name);
      }
    }
  }

  /** A min-max feature with a column, named once, gets that column's
      minimum and maximum as its learned bounds. */
  lemma {:induction false} FitRecordsColumnRange(
    ranges: map<string, Range>, names: seq<string>, x: seq<seq<real>>, width: nat, i: nat, j: nat)
    requires Matrix(x, width) && |x| > 0
    requires i <= j < |names| && Learns(ranges, names, width, j)
    requires forall k :: 0 <= k < |names| && k != j ==> names[k] != names[j]
    requires Fitted(ranges, names, x, width, i).Some?
    ensures names[j] in Fitted(ranges, names, x, width, i).value
    ensures Fitted(ranges, names, x, width, i).value[names[j]] == Learn(ranges[names[j]], Column(x, width, j))
    decreases |names| - i
  {
    if Learns(ranges, names, width, i) {
      var next := ranges[names[i] := Learn(ranges[names[i]], Column(x, width, i))];
      if i == j {
        FitKeepsOthers(next, names, x, width, i + 1, names[j]);
      } else {
        assert Learns(next, names, width, j);
        FitRecordsColumnRange(next, names, x, width, i + 1, j);
      }
    } else {
      assert i != j;
      FitRecordsColumnRange(ranges, names, x, width, i + 1, j);
    }
  }

  /** After a successful `fit`, `transform` scales such a feature by the
      column's own minimum and maximum, whatever the configuration says. */
  lemma {:induction false} FitThenTransform(
    ranges: map<string, Range>, names: seq<string>, x: seq<seq<real>>, width: nat, j: nat, v: seq<real>)
    requires Matrix(x, width) && |x| > 0
    requires j < |names| && j < |v| && Learns(ranges, names, width, j)
    requires ranges[names[j]].scaler == "minmax"
    requires forall k :: 0 <= k < |names| && k != j ==> names[k] != names[j]
    requires Fitted(ranges, names, x, width, 0).Some?
    ensures var c := Column(x, width, j);
      Transform(Fitted(ranges, names, x, width, 0).value, names, v)[j] == ScaleWith(MinOf(c), MaxOf(c), v[j])
  {
    var fitted := Fitted(ranges, names, x, width, 0).value;
    FitRecordsColumnRange(ranges, names, x, width, 0, j);
    TransformAt(fitted, names, v);
  }

  // ---------------------------------------------------------------------
  // The scaler object
  // ---------------------------------------------------------------------

  class DataScaler {
    var scalerType: string
    var featureNames: seq<string>
    var ranges: map<string, Range>

    /** Every entry belongs to a configured feature, so `fit` can read its
        configuration. */
    predicate Valid()
      reads this
    {
      ranges.Keys <= Configs.Keys
    }

    /** `__init__` with `_initialize_scalers`. */
    constructor(scalerType: string)
      ensures Valid()
      ensures this.scalerType == scalerType
      ensures featureNames == FeatureNames && ranges == InitialRanges()
    {
      this.scalerType := scalerType;
      featureNames := FeatureNames;
      NamesConfigured();
      var built := BuildRanges(FeatureNames);
      assert built == InitialRanges();
      ranges := built;
    }

    /** The loop of `_initialize_scalers`. */
    static method BuildRanges(names: seq<string>) returns (built: map<string, Range>)
      requires forall i :: 0 <= i < |names| ==> names[i] in Configs
      ensures built == RangesFor(names)
    {
      built := map[];
      for i := 0 to |names|
        invariant built == RangesFor(names[..i])
      {
        assert names[..i + 1][..i] == names[..i];
        built := built[names[i] := InitialRange(Configs[names[i]])];
      }
      assert names[..|names|] == names;
    }

    /** `fit`: an empty `names` keeps the current feature names, which are
        replaced before any column is read. */
    method Fit(x: seq<seq<real>>, width: nat, names: seq<string>) returns (ok: bool)
      requires Valid() && Matrix(x, width)
      modifies this
      ensures Valid()
      ensures scalerType == old(scalerType)
      ensures featureNames == (if names == [] then old(featureNames) else names)
      ensures ok == Fitted(old(ranges), featureNames, x, width, 0).Some?
      ensures ok ==> ranges == Fitted(old(ranges), featureNames, x, width, 0).value
      ensures !ok ==> ranges == old(ranges)
    {
      if names != [] {
        featureNames := names;
      }
      var fitNames := featureNames;
      ghost var start := ranges;
      for i := 0 to |fitNames|
        invariant featureNames == fitNames && scalerType == old(scalerType)
        invariant ranges.Keys == start.Keys
        invariant |x| == 0 ==> ranges == start
        invariant Fitted(start, fitNames, x, width, 0) == Fitted(ranges, fitNames, x, width, i)
      {
        var name := fitNames[i];
        if i < width && name in ranges {
          var config := Configs[name];
          if config.scaler == "minmax" {
            if |x| == 0 {
              return false;
            }
            var column := Column(x, width, i);
            ranges := ranges[name := Learn(ranges[name], column)];
          }
        }
      }
      ok := true;
    }

    /** `transform`. */
    method TransformFeatures(features: seq<real>) returns (out: seq<real>)
      ensures out == Transform(ranges, featureNames, features)
    {
      out := [];
      for i := 0 to |featureNames|
        invariant out == Transform(ranges, featureNames[..i], features)
      {
        assert featureNames[..i + 1][..i] == featureNames[..i];
        if i >= |features| {
          out := out + [0.0];
          continue;
        }
        var value := features[i];
        var config := if featureNames[i] in ranges then ranges[featureNames[i]] else Unconfigured;
        var scaled: real;
        if config.scaler == "none" {
          scaled := value;
        } else if config.scaler == "minmax" {
          var lo, hi := config.min, config.max;
          if config.dataMin.Some? && config.dataMax.Some? {
            lo, hi := config.dataMin.value, config.dataMax.value;
          }
          scaled := if hi > lo then (value - lo) / (hi - lo) else 0.0;
          scaled := Clip(scaled, 0.0, 1.0);
        } else if config.scaler == "standard" {
          if config.mean.Some? && config.std.Some? {
            scaled := if config.std.value > 0.0 then (value - config.mean.value) / config.std.value else 0.0;
          } else {
            scaled := value;
          }
        } else {
          scaled := value;
        }
        out := out + [scaled];
      }
      assert featureNames[..|featureNames|] == featureNames;
    }

    /** `inverse_transform`. */
    method InverseTransformFeatures(scaled: seq<real>) returns (out: seq<real>)
      ensures out == InverseTransform(ranges, featureNames, scaled)
    {
      out := [];
      for i := 0 to |featureNames|
        invariant out == InverseTransform(ranges, featureNames[..i], scaled)
      {
        assert featureNames[..i + 1][..i] == featureNames[..i];
        if i >= |scaled| {
          out := out + [0.0];
          continue;
        }
        var s := scaled[i];
        var config := if featureNames[i] in ranges then ranges[featureNames[i]] else Unconfigured;
        var original: real;
        if config.scaler == "none" {
          original := s;
        } else if config.scaler == "minmax" {
          var lo, hi := config.min, config.max;
          if config.dataMin.Some? && config.dataMax.Some? {
            lo, hi := config.dataMin.value, config.dataMax.value;
          }
          original := s * (hi - lo) + lo;
        } else if config.scaler == "standard" {
          if config.mean.Some? && config.std.Some? {
            original := s * config.std.value + config.mean.value;
          } else {
            original := s;
          }
        } else {
          original := s;
        }
        assert original == UnEntry(ranges, featureNames[i], scaled, i);
        out := out + [original];
      }
      assert featureNames[..|featureNames|] == featureNames;
    }
  }
}
