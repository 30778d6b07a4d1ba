/**
 * The evaluation service (backend/services/evaluation_service.py): the
 * alert rule on metric thresholds, the per-day, per-week and per-model
 * buckets that store evaluations, the performance summary over a period
 * (optionally for one model type), and the accuracy trend.
 *
 * A stored evaluation is a `MetricsRecord`: its numeric metrics and the
 * `model_type` of the metadata attached to it, if any. A dictionary from bucket key to a
 * list of records is a `Bucket`, kept in insertion order as the Python dict
 * is, since the trend depends on that order. Keys derived from the wall
 * clock (`%Y-%m-%d`, `%Y-W%W`) are parameters.
 */
module Evaluation {
  import opened Common

  // ---------------------------------------------------------------------
  // Alerts
  // ---------------------------------------------------------------------

  /** `alert_thresholds`, in their order. */
  const AlertThresholds: seq<(string, real)> := [
    ("accuracy", 0.75), ("precision", 0.70), ("recall", 0.70), ("f1_score", 0.70), ("auc_roc", 0.75)]

  /** Below this share of the threshold an alert is `high`. */
  const HighSeverityShare: real := 0.8

  datatype Severity = High | Medium

  datatype Alert = Alert(metric: string, value: real, threshold: real, severity: Severity)

  /** The alert for a metric below its threshold. */
  function AlertFor(metric: string, value: real, threshold: real): Alert {
    Alert(metric, value, threshold, if value < threshold * HighSeverityShare then High else Medium)
  }

  /** One alert per listed metric that is present and strictly below its
      threshold, in the order of the list. */
  function Alerts(metrics: map<string, real>, thresholds: seq<(string, real)>): seq<Alert> {
    if thresholds == [] then []
    else
      var k := |thresholds| - 1;
      var (name, threshold) := thresholds[k];
      Alerts(metrics, thresholds[..k]) +
      (if name in metrics && metrics[name] < threshold then [AlertFor(name, metrics[name], threshold)] else [])
  }

  /** An alert is raised for a listed metric exactly when it is present and
      below its threshold; it carries the value and the threshold, and it is
      `high` exactly when the value is below 0.8 of the threshold. */
  lemma {:induction false} AlertsExactly(metrics: map<string, real>, thresholds: seq<(string, real)>)
    ensures |Alerts(metrics, thresholds)| <= |thresholds|
    ensures forall a :: a in Alerts(metrics, thresholds) <==>
      exists i :: 0 <= i < |thresholds| && thresholds[i].0 in metrics && metrics[thresholds[i].0] < thresholds[i].1 &&
        a == AlertFor(thresholds[i].0, metrics[thresholds[i].0], thresholds[i].1)
    ensures forall a :: a in Alerts(metrics, thresholds) ==>
      a.value < a.threshold && (a.severity == High <==> a.value < a.threshold * HighSeverityShare)
  {
    if thresholds != [] {
      var k := |thresholds| - 1;
      AlertsExactly(metrics, thresholds[..k]);
      var prev := Alerts(metrics, thresholds[..k]);
      var (name, threshold) := thresholds[k];
      var last := if name in metrics && metrics[name] < threshold then [AlertFor(name, metrics[name], threshold)] else [];
      assert Alerts(metrics, thresholds) == prev + last;
      forall a
        ensures a in prev + last <==>
          exists i :: 0 <= i < |thresholds| && thresholds[i].0 in metrics && metrics[thresholds[i].0] < thresholds[i].1 &&
            a == AlertFor(thresholds[i].0, metrics[thresholds[i].0], thresholds[i].1)
      {
        if a in prev + last {
          if a in prev {
            var i :| 0 <= i < k && thresholds[..k][i].0 in metrics && metrics[thresholds[..k][i].0] < thresholds[..k][i].1 &&
              a == AlertFor(thresholds[..k][i].0, metrics[thresholds[..k][i].0], thresholds[..k][i].1);
            assert thresholds[..k][i] == thresholds[i];
          } else {
            assert a == AlertFor(thresholds[k].0, metrics[thresholds[k].0], thresholds[k].1);
          }
        }
        if exists i :: 0 <= i < |thresholds| && thresholds[i].0 in metrics && metrics[thresholds[i].0] < thresholds[i].1 &&
            a == AlertFor(thresholds[i].0, metrics[thresholds[i].0], thresholds[i].1) {
          var i :| 0 <= i < |thresholds| && thresholds[i].0 in metrics && metrics[thresholds[i].0] < thresholds[i].1 &&
            a == AlertFor(thresholds[i].0, metrics[thresholds[i].0], thresholds[i].1);
          if i < k {
            assert thresholds[..k][i] == thresholds[i];
            assert a in prev;
          } else {
            assert a in last;
          }
        }
      }
    }
  }

  /** `_check_for_alerts`. */
  method CheckForAlerts(metrics: map<string, real>) returns (alerts: seq<Alert>)
    ensures alerts == Alerts(metrics, AlertThresholds)
  {
    alerts := [];
    for i := 0 to |AlertThresholds|
      invariant alerts == Alerts(metrics, AlertThresholds[..i])
    {
      assert AlertThresholds[..i + 1][..i] == AlertThresholds[..i];
      var (name, threshold) := AlertThresholds[i];
      if name in metrics && metrics[name] < threshold {
        alerts := alerts + [AlertFor(name, metrics[name], threshold)];
      }
    }
    assert AlertThresholds[..|AlertThresholds|] == AlertThresholds;
  }

  // ---------------------------------------------------------------------
  // Buckets: dictionaries of lists in insertion order
  // ---------------------------------------------------------------------

  /** One stored evaluation: its numeric metrics and its model type. */
  datatype MetricsRecord = MetricsRecord(values: map<string, real>, modelType: Option<string>)

  type Bucket = seq<(string, seq<MetricsRecord>)>

  predicate DistinctKeys(b: Bucket) {
    forall i, j :: 0 <= i < j < |b| ==> b[i].0 != b[j].0
  }

  /** The list under a key, or the empty list. */
  function Lookup(b: Bucket, key: string): seq<MetricsRecord> {
    if b == [] then [] else if b[0].0 == key then b[0].1 else Lookup(b[1..], key)
  }

  /** All the records of a bucket, key by key. */
  function Flatten(b: Bucket): seq<MetricsRecord> {
    if b == [] then [] else b[0].1 + Flatten(b[1..])
  }

  /** `d[key].extend(l)`, creating the key at the end when it is new. */
  function Extend(b: Bucket, key: string, l: seq<MetricsRecord>): Bucket {
    if b == [] then [(key, l)]
    else if b[0].0 == key then [(key, b[0].1 + l)] + b[1..]
    else [b[0]] + Extend(b[1..], key, l)
  }

  /** Extending one key adds to that key's list and to no other. */
  lemma {:induction false} ExtendLookup(b: Bucket, key: string, l: seq<MetricsRecord>, other: string)
    ensures Lookup(Extend(b, key, l), other) == Lookup(b, other) + (if other == key then l else [])
  {
    if b != [] && b[0].0 != key {
      ExtendLookup(b[1..], key, l, other);
      assert Extend(b, key, l)[1..] == Extend(b[1..], key, l);
    }
  }

  /** Extending keeps keys distinct and adds exactly the new records. */
  lemma {:induction false} ExtendRecords(b: Bucket, key: string, l: seq<MetricsRecord>)
    requires DistinctKeys(b)
    ensures DistinctKeys(Extend(b, key, l))
    ensures forall k :: k in Keys(Extend(b, key, l)) <==> k in Keys(b) || k == key
    ensures multiset(Flatten(Extend(b, key, l))) == multiset(Flatten(b)) + multiset(l)
  {
    if b != [] {
      if b[0].0 == key {
        var e := Extend(b, key, l);
        assert e[1..] == b[1..];
        assert Keys(e) == Keys(b);
        assert Flatten(e) == (b[0].1 + l) + Flatten(b[1..]);
        assert Flatten(b) == b[0].1 + Flatten(b[1..]);
      } else {
        ExtendRecords(b[1..], key, l);
        var e := Extend(b, key, l);
        var e' := Extend(b[1..], key, l);
        assert e == [b[0]] + e';
        assert e[1..] == e';
        assert Keys(e) == [b[0].0] + Keys(e');
        assert Keys(b) == [b[0].0] + Keys(b[1..]);
        assert b[0].0 !in Keys(e') by {
          assert b[0].0 !in Keys(b[1..]) by {
            forall i | 0 <= i < |b[1..]| ensures Keys(b[1..])[i] != b[0].0 {
              assert b[1..][i] == b[i + 1];
            }
          }
        }
        assert Flatten(e) == b[0].1 + Flatten(e');
        assert Flatten(b) == b[0].1 + Flatten(b[1..]);
      }
    }
  }

  function Keys(b: Bucket): (ks: seq<string>)
    ensures |ks| == |b|
    ensures forall i :: 0 <= i < |b| ==> ks[i] == b[i].0
  {
    if b == [] then [] else [b[0].0] + Keys(b[1..])
  }

  /** Every list a bucket holds under a key, concatenated. */
  function Collect(b: Bucket, key: string): seq<MetricsRecord> {
    if b == [] then [] else (if b[0].0 == key then b[0].1 else []) + Collect(b[1..], key)
  }

  lemma {:induction false} CollectDistinct(b: Bucket, key: string)
    requires DistinctKeys(b)
    ensures Collect(b, key) == Lookup(b, key)
  {
    if b != [] {
      CollectDistinct(b[1..], key);
      if b[0].0 == key {
        CollectAbsent(b[1..], key);
      }
    }
  }

  lemma {:induction false} CollectAbsent(b: Bucket, key: string)
    requires forall i :: 0 <= i < |b| ==> b[i].0 != key
    ensures Collect(b, key) == []
  {
    if b != [] {
      CollectAbsent(b[1..], key);
    }
  }

  /** The inner loop of `_aggregate_all_metrics`: every entry of `b`
      extends the accumulator, in order. */
  function ExtendAll(acc: Bucket, b: Bucket): Bucket
    decreases |b|
  {
    if b == [] then acc else ExtendAll(Extend(acc, b[0].0, b[0].1), b[1..])
  }

  lemma {:induction false} ExtendAllLookup(acc: Bucket, b: Bucket, key: string)
    ensures Lookup(ExtendAll(acc, b), key) == Lookup(acc, key) + Collect(b, key)
    decreases |b|
  {
    if b != [] {
      ExtendLookup(acc, b[0].0, b[0].1, key);
      ExtendAllLookup(Extend(acc, b[0].0, b[0].1), b[1..], key);
    }
  }

  // ---------------------------------------------------------------------
  // The performance history
  // ---------------------------------------------------------------------

  /** `performance_history`. */
  datatype History = History(daily: Bucket, weekly: Bucket, monthly: Bucket, byModel: Bucket, byPatientGroup: Bucket)

  const EmptyHistory: History := History([], [], [], [], [])

  predicate WellFormed(h: History) {
    DistinctKeys(h.daily) && DistinctKeys(h.weekly) && DistinctKeys(h.monthly) &&
    DistinctKeys(h.byModel) && DistinctKeys(h.byPatientGroup)
  }

  /** `_store_metrics`: the record joins its day's and its week's list, and
      its model type's list when the metadata names one. */
  function Store(h: History, m: MetricsRecord, dateKey: string, weekKey: string): History {
    var stored := h.(daily := Extend(h.daily, dateKey, [m]), weekly := Extend(h.weekly, weekKey, [m]));
    if m.modelType.Some? then stored.(byModel := Extend(h.byModel, m.modelType.value, [m])) else stored
  }

  /** Storing adds the record once to the day, once to the week and, with
      a model type, once to that model; nothing else changes, and the
      monthly and per-group buckets are never filled. */
  lemma {:induction false} StoreAppendsOnce(h: History, m: MetricsRecord, dateKey: string, weekKey: string)
    requires WellFormed(h)
    ensures var r := Store(h, m, dateKey, weekKey);
      WellFormed(r) && r.monthly == h.monthly && r.byPatientGroup == h.byPatientGroup &&
      Lookup(r.daily, dateKey) == Lookup(h.daily, dateKey) + [m] &&
      Lookup(r.weekly, weekKey) == Lookup(h.weekly, weekKey) + [m] &&
      multiset(Flatten(r.daily)) == multiset(Flatten(h.daily)) + multiset{m} &&
      (m.modelType.Some? ==> Lookup(r.byModel, m.modelType.value) == Lookup(h.byModel, m.modelType.value) + [m]) &&
      (m.modelType.None? ==> r.byModel == h.byModel)
  {
    ExtendRecords(h.daily, dateKey, [m]);
    ExtendRecords(h.weekly, weekKey, [m]);
    ExtendLookup(h.daily, dateKey, [m], dateKey);
    ExtendLookup(h.weekly, weekKey, [m], weekKey);
    if m.modelType.Some? {
      ExtendRecords(h.byModel, m.modelType.value, [m]);
      ExtendLookup(h.byModel, m.modelType.value, [m], m.modelType.value);
    }
  }

  /** `_aggregate_all_metrics`. */
  function AggregateAll(h: History): Bucket {
    ExtendAll(ExtendAll(ExtendAll(ExtendAll(ExtendAll([], h.daily), h.weekly), h.monthly), h.byModel), h.byPatientGroup)
  }

  /** The aggregate holds under each key that key's lists from the five
      buckets, one after another in the bucket order. */
  lemma {:induction false} AggregateConcatenates(h: History, key: string)
    requires WellFormed(h)
    ensures Lookup(AggregateAll(h), key) ==
      Lookup(h.daily, key) + Lookup(h.weekly, key) + Lookup(h.monthly, key) +
      Lookup(h.byModel, key) + Lookup(h.byPatientGroup, key)
  {
    var a1 := ExtendAll([], h.daily);
    var a2 := ExtendAll(a1, h.weekly);
    var a3 := ExtendAll(a2, h.monthly);
    var a4 := ExtendAll(a3, h.byModel);
    ExtendAllDistinct([], h.daily, key);
    ExtendAllDistinct(a1, h.weekly, key);
    ExtendAllDistinct(a2, h.monthly, key);
    ExtendAllDistinct(a3, h.byModel, key);
    ExtendAllDistinct(a4, h.byPatientGroup, key);
    assert Lookup(a1, key) == Lookup(h.daily, key);
  }

  lemma {:induction false} ExtendAllDistinct(acc: Bucket, b: Bucket, key: string)
    requires DistinctKeys(b)
    ensures Lookup(ExtendAll(acc, b), key) == Lookup(acc, key) + Lookup(b, key)
  {
    ExtendAllLookup(acc, b, key);
    CollectDistinct(b, key);
  }

  /** `self.performance_history.get(period, {})`, with `all` aggregated. */
  function PeriodData(h: History, period: string): Bucket {
    if period == "all" then AggregateAll(h)
    else if period == "daily" then h.daily
    else if period == "weekly" then h.weekly
    else if period == "monthly" then h.monthly
    else if period == "by_model" then h.byModel
    else if period == "by_patient_group" then h.byPatientGroup
    else []
  }

  // ---------------------------------------------------------------------
  // Filtering by model type
  // ---------------------------------------------------------------------

  function OfModel(l: seq<MetricsRecord>, t: string): seq<MetricsRecord> {
    if l == [] then [] else (if l[0].modelType == Some(t) then [l[0]] else []) + OfModel(l[1..], t)
  }

  /** The filter of `get_performance_summary`: each list keeps the records
      of the model type, and keys left empty are dropped. */
  function FilterBucket(b: Bucket, t: string): Bucket {
    if b == [] then []
    else
      var kept := OfModel(b[0].1, t);
      (if kept != [] then [(b[0].0, kept)] else []) + FilterBucket(b[1..], t)
  }

  lemma {:induction false} OfModelAppend(a: seq<MetricsRecord>, b: seq<MetricsRecord>, t: string)
    ensures OfModel(a + b, t) == OfModel(a, t) + OfModel(b, t)
  {
    if a != [] {
      OfModelAppend(a[1..], b, t);
      assert (a + b)[1..] == a[1..] + b;
    } else {
      assert a + b == b;
    }
  }

  lemma {:induction false} OfModelContent(l: seq<MetricsRecord>, t: string)
    ensures forall r :: r in OfModel(l, t) <==> r in l && r.modelType == Some(t)
  {
    if l != [] {
      OfModelContent(l[1..], t);
      assert l == [l[0]] + l[1..];
    }
  }

  /** Filtering keeps, in order, exactly the records of the model type,
      leaves no empty list behind and invents no key. */
  lemma {:induction false} FilterKeepsModel(b: Bucket, t: string)
    ensures Flatten(FilterBucket(b, t)) == OfModel(Flatten(b), t)
    ensures forall i :: 0 <= i < |FilterBucket(b, t)| ==> FilterBucket(b, t)[i].1 != []
    ensures forall k :: k in Keys(FilterBucket(b, t)) ==> k in Keys(b)
  {
    if b != [] {
      FilterKeepsModel(b[1..], t);
      OfModelAppend(b[0].1, Flatten(b[1..]), t);
      var kept := OfModel(b[0].1, t);
      var rest := FilterBucket(b[1..], t);
      if kept != [] {
        assert FilterBucket(b, t) == [(b[0].0, kept)] + rest;
        assert Flatten(FilterBucket(b, t)) == kept + Flatten(rest) by {
          assert FilterBucket(b, t)[1..] == rest;
        }
        assert Keys(FilterBucket(b, t)) == [b[0].0] + Keys(rest);
      } else {
        assert FilterBucket(b, t) == rest;
      }
      assert Keys(b) == [b[0].0] + Keys(b[1..]);
    }
  }

  // ---------------------------------------------------------------------
  // Trend
  // ---------------------------------------------------------------------

  datatype Trend = Improving | Declining | Stable

  const TrendThreshold: real := 0.01
  const TrendWindow: nat := 10

  /** `m.get(name, 0)`. */
  function Get(m: MetricsRecord, name: string): real {
    if name in m.values then m.values[name] else 0.0
  }

  function Values(ms: seq<MetricsRecord>, name: string): (v: seq<real>)
    ensures |v| == |ms|
  {
    seq(|ms|, i requires 0 <= i < |ms| => Get(ms[i], name))
  }

  /** Σ (i − c) over i < m. */
  function DevSum(m: nat, c: real): real {
    if m == 0 then 0.0 else DevSum(m - 1, c) + ((m - 1) as real - c)
  }

  /** Σ (i − c)² over i < m. */
  function SqSum(m: nat, c: real): (r: real)
    ensures r >= 0.0
  {
    if m == 0 then 0.0
    else
      var x := (m - 1) as real - c;
      assert x * x >= 0.0 by { Square(x); }
      SqSum(m - 1, c) + x * x
  }

  lemma Square(x: real)
    ensures x * x >= 0.0
  {
    if x < 0.0 {
      assert x * x == (-x) * (-x);
    }
  }

  /** Σ (i − c)(y[i] − d). */
  function CrossSum(y: seq<real>, c: real, d: real): real {
    if y == [] then 0.0
    else
      var k := |y| - 1;
      CrossSum(y[..k], c, d) + (k as real - c) * (y[k] - d)
  }

  /** The slope of `np.cov(x, y)[0, 1] / np.var(x)` with x = 0 … m−1: a
      sample covariance (divided by m − 1) over a population variance
      (divided by m); `None` where `np.std(x) == 0`. */
  function Slope(y: seq<real>): Option<real>
    requires |y| >= 2
  {
    var m := |y| as real;
    var c := (m - 1.0) / 2.0;
    var variance := SqSum(|y|, c) / m;
    if variance == 0.0 then None
    else Some((CrossSum(y, c, Mean(y)) / (m - 1.0)) / variance)
  }

  function Classify(y: seq<real>): Trend {
    if |y| < 2 then Stable
    else
      var s := Slope(y);
      if s.None? then Stable
      else if s.value > TrendThreshold then Improving
      else if s.value < -TrendThreshold then Declining
      else Stable
  }

  /** `_calculate_trend`. */
  function CalculateTrend(ms: seq<MetricsRecord>, name: string): Trend {
    if |ms| < 2 then Stable
    else
      var values := Values(ms, name);
      Classify(if |values| > TrendWindow then PyTail(values, TrendWindow) else values)
  }

  /** Only the last ten values decide the trend. */
  lemma {:induction false} TrendUsesLastTen(ms: seq<MetricsRecord>, name: string)
    requires |ms| > TrendWindow
    ensures CalculateTrend(ms, name) == CalculateTrend(ms[|ms| - TrendWindow..], name)
  {
    var tail := ms[|ms| - TrendWindow..];
    assert Values(tail, name) == Values(ms, name)[|ms| - TrendWindow..];
  }

  lemma {:induction false} DevSumClosed(m: nat, c: real)
    ensures DevSum(m, c) == (m as real) * ((m as real) - 1.0) / 2.0 - (m as real) * c
  {
    if m > 0 {
      DevSumClosed(m - 1, c);
    }
  }

  lemma {:induction false} SqSumAtLeastFirst(m: nat, c: real)
    requires m >= 1
    ensures SqSum(m, c) >= c * c
  {
    if m > 1 {
      SqSumAtLeastFirst(m - 1, c);
      Square((m - 1) as real - c);
    } else {
      assert (0.0 - c) * (0.0 - c) == c * c;
    }
  }

  /** The points a·i + b for i < m. */
  function Line(m: nat, a: real, b: real): (y: seq<real>)
    ensures |y| == m
  {
    seq(m, i requires 0 <= i < m => a * i as real + b)
  }

  lemma {:induction false} CrossSumLine(m: nat, a: real, b: real, c: real, d: real)
    ensures CrossSum(Line(m, a, b), c, d) == a * SqSum(m, c) + (a * c + b - d) * DevSum(m, c)
  {
    if m > 0 {
      var k := m - 1;
      assert Line(m, a, b)[..k] == Line(k, a, b);
      CrossSumLine(k, a, b, c, d);
      var x := k as real - c;
      assert x * (a * k as real + b - d) == a * (x * x) + (a * c + b - d) * x;
    }
  }

  /** On points lying on a line of slope a the computed slope is
      a·m/(m−1), not a: the covariance is a sample one and the variance a
      population one. A constant series is therefore stable. */
  lemma {:induction false} SlopeOfLine(m: nat, a: real, b: real)
    requires m >= 2
    ensures Slope(Line(m, a, b)) == Some(a * (m as real) / ((m as real) - 1.0))
  {
    var y := Line(m, a, b);
    var c := ((m as real) - 1.0) / 2.0;
    var q := SqSum(m, c);
    CenteredSums(m);
    LineCrossSum(m, a, b);
    assert CrossSum(y, c, Mean(y)) == a * q;
    SlopeOfScaledSums(y, m, c, q, a);
  }

  /** About the centre, a line's cross sum is its slope times the sum of
      squares. */
  lemma {:induction false} LineCrossSum(m: nat, a: real, b: real)
    requires m >= 2
    ensures var c := ((m as real) - 1.0) / 2.0;
      CrossSum(Line(m, a, b), c, Mean(Line(m, a, b))) == a * SqSum(m, c)
  {
    var c := ((m as real) - 1.0) / 2.0;
    var d := Mean(Line(m, a, b));
    CrossSumLine(m, a, b, c, d);
    CenteredSums(m);
    var e := a * c + b - d;
    assert e * DevSum(m, c) == 0.0;
  }

  /** The slope of a series whose cross sum is a times its sum of squares. */
  lemma SlopeOfScaledSums(y: seq<real>, m: nat, c: real, q: real, a: real)
    requires |y| == m >= 2 && c == ((m as real) - 1.0) / 2.0
    requires SqSum(m, c) == q > 0.0
    requires CrossSum(y, c, Mean(y)) == a * q
    ensures Slope(y).Some? && Slope(y).value == a * (m as real) / ((m as real) - 1.0)
  {
    var n := m as real;
    SlopeFromSums(y, m, c, q, a * q);
    assert Slope(y) == Some((a * q / (n - 1.0)) / (q / n));
    RatioCancels(a, q, n);
    assert (a * q / (n - 1.0)) / (q / n) == a * n / (n - 1.0);
    assert Slope(y) == Some(a * n / (n - 1.0));
  }

  /** The slope once the sums are known. */
  lemma SlopeFromSums(y: seq<real>, m: nat, c: real, q: real, cross: real)
    requires |y| == m >= 2 && c == ((m as real) - 1.0) / 2.0
    requires SqSum(m, c) == q > 0.0
    requires CrossSum(y, c, Mean(y)) == cross
    ensures Slope(y) == Some((cross / ((m as real) - 1.0)) / (q / (m as real)))
  {
  }

  /** A constant series has no trend. */
  lemma {:induction false} ConstantIsStable(m: nat, b: real)
    ensures Classify(Line(m, 0.0, b)) == Stable
  {
    if m >= 2 {
      SlopeOfLine(m, 0.0, b);
    }
  }

  /** About the centre (m − 1)/2 the deviations cancel and, for two or more
      points, their squares do not. */
  lemma CenteredSums(m: nat)
    requires m >= 2
    ensures DevSum(m, ((m as real) - 1.0) / 2.0) == 0.0
    ensures SqSum(m, ((m as real) - 1.0) / 2.0) > 0.0
  {
    var n := m as real;
    var c := (n - 1.0) / 2.0;
    DevSumClosed(m, c);
    assert n * (n - 1.0) / 2.0 == n * c;
    SqSumAtLeastFirst(m, c);
    assert c >= 0.5;
    assert c * c >= 0.5 * c;
  }

  lemma RatioCancels(a: real, q: real, n: real)
    requires q > 0.0 && n > 1.0
    ensures (a * q / (n - 1.0)) / (q / n) == a * n / (n - 1.0)
  {
    var p := n - 1.0;
    assert a * q / p == (a / p) * q;
    assert ((a / p) * q) / (q / n) == (a / p) * n;
  }

  // ---------------------------------------------------------------------
  // Summary
  // ---------------------------------------------------------------------

  datatype Summary = Summary(
    totalEvaluations: nat,
    averageAccuracy: real, averagePrecision: real, averageRecall: real, averageF1Score: real,
    minAccuracy: real, maxAccuracy: real, recentTrend: Trend)

  /** `_calculate_summary_statistics`: `None` stands for the empty
      dictionary returned when there is no data. */
  function SummaryStatistics(data: Bucket): Option<Summary> {
    var all := Flatten(data);
    if all == [] then None
    else
      var accuracy := Values(all, "accuracy");
      Some(Summary(
        |all|,
        Mean(accuracy), Mean(Values(all, "precision")), Mean(Values(all, "recall")), Mean(Values(all, "f1_score")),
        MinOf(accuracy), MaxOf(accuracy), CalculateTrend(PyTail(all, 100), "accuracy")))
  }

  /** No data gives the empty summary; otherwise it counts every record
      and the average accuracy lies between the smallest and the largest,
      a missing accuracy counting as 0. */
  lemma {:induction false} SummaryBounds(data: Bucket)
    ensures SummaryStatistics(data).None? <==> Flatten(data) == []
    ensures SummaryStatistics(data).Some? ==>
      var s := SummaryStatistics(data).value;
      s.totalEvaluations == |Flatten(data)| &&
      s.minAccuracy <= s.averageAccuracy <= s.maxAccuracy &&
      (forall i :: 0 <= i < |Flatten(data)| ==> s.minAccuracy <= Get(Flatten(data)[i], "accuracy") <= s.maxAccuracy)
  {
    var all := Flatten(data);
    if all != [] {
      var accuracy := Values(all, "accuracy");
      var s := SummaryStatistics(data).value;
      assert s.minAccuracy == MinOf(accuracy) && s.maxAccuracy == MaxOf(accuracy);
      assert s.averageAccuracy == Mean(accuracy);
      MeanBounds(accuracy, MinOf(accuracy), MaxOf(accuracy));
      forall i | 0 <= i < |all|
        ensures s.minAccuracy <= Get(all[i], "accuracy") <= s.maxAccuracy
      {
        assert accuracy[i] == Get(all[i], "accuracy");
      }
    }
  }

  /** Σ over the buckets of (number of records) × (their average accuracy);
      an empty bucket adds nothing. */
  function PooledAccuracy(data: Bucket): real {
    if data == [] then 0.0
    else
      var l := data[0].1;
      (if l == [] then 0.0 else |l| as real * Mean(Values(l, "accuracy"))) + PooledAccuracy(data[1..])
  }

  /** Reading one metric off two lists of records, one after the other. */
  lemma {:induction false} ValuesAppend(a: seq<MetricsRecord>, b: seq<MetricsRecord>, name: string)
    ensures Values(a + b, name) == Values(a, name) + Values(b, name)
  {
    assert forall i :: 0 <= i < |a + b| ==> Values(a + b, name)[i] == (Values(a, name) + Values(b, name))[i];
  }

  /** A non-empty bucket's count times its mean is its total. */
  lemma {:induction false} ScaledMean(s: seq<real>)
    requires 0 < |s|
    ensures |s| as real * Mean(s) == Sum(s)
  {
  }

  /** The per-bucket averages, weighted by their record counts, add up to the
      total accuracy of all records. */
  lemma {:induction false} PooledIsSum(data: Bucket)
    ensures PooledAccuracy(data) == Sum(Values(Flatten(data), "accuracy"))
  {
    if data != [] {
      var l := data[0].1;
      var rest := Flatten(data[1..]);
      var head := if l == [] then 0.0 else |l| as real * Mean(Values(l, "accuracy"));
      assert PooledAccuracy(data) == head + PooledAccuracy(data[1..]);
      PooledIsSum(data[1..]);
      assert head == Sum(Values(l, "accuracy")) by {
        if l != [] {
          ScaledMean(Values(l, "accuracy"));
        }
      }
      assert Flatten(data) == l + rest;
      ValuesAppend(l, rest, "accuracy");
      SumAppend(Values(l, "accuracy"), Values(rest, "accuracy"));
    }
  }

  /** The summary pools the buckets: its average accuracy is the mean of the
      per-bucket average accuracies weighted by their record counts. */
  lemma {:induction false} SummaryAveragePools(data: Bucket)
    ensures SummaryStatistics(data).None? <==> Flatten(data) == []
    ensures SummaryStatistics(data).Some? ==>
      SummaryStatistics(data).value.averageAccuracy == PooledAccuracy(data) / |Flatten(data)| as real
  {
    if Flatten(data) != [] {
      PooledIsSum(data);
    }
  }

  /** `get_performance_summary`. */
  datatype Report = Report(period: string, modelType: Option<string>, summary: Option<Summary>, dataPoints: nat, timestamp: int)

  function PerformanceSummary(h: History, period: string, modelType: Option<string>, now: int): Report {
    var raw := PeriodData(h, period);
    var data := if modelType.Some? && modelType.value != "" then FilterBucket(raw, modelType.value) else raw;
    Report(period, modelType, SummaryStatistics(data), |Flatten(data)|, now)
  }

  /** With a model type, the report counts exactly that type's records of
      the period; without one, all of them. */
  lemma {:induction false} ReportCountsFilteredRecords(h: History, period: string, modelType: Option<string>, now: int)
    ensures var r := PerformanceSummary(h, period, modelType, now);
      var raw := Flatten(PeriodData(h, period));
      r.dataPoints == (if modelType.Some? && modelType.value != "" then |OfModel(raw, modelType.value)| else |raw|) &&
      (r.summary.None? <==> r.dataPoints == 0)
  {
    var raw := PeriodData(h, period);
    if modelType.Some? && modelType.value != "" {
      FilterKeepsModel(raw, modelType.value);
      SummaryBounds(FilterBucket(raw, modelType.value));
    } else {
      SummaryBounds(raw);
    }
  }

  // ---------------------------------------------------------------------
  // The service object
  // ---------------------------------------------------------------------

  class EvaluationService {
    var history: History

    predicate Valid()
      reads this
    {
      WellFormed(history)
    }

    /** `__init__` with `_initialize_metrics`. */
    constructor()
      ensures history == EmptyHistory && Valid()
    {
      history := EmptyHistory;
    }

    /** `_store_metrics`, appending in place. */
    method StoreMetrics(m: MetricsRecord, dateKey: string, weekKey: string)
      requires Valid()
      modifies this
      ensures history == Store(old(history), m, dateKey, weekKey) && Valid()
    {
      StoreAppendsOnce(history, m, dateKey, weekKey);
      var daily := Extend(history.daily, dateKey, [m]);
      var weekly := Extend(history.weekly, weekKey, [m]);
      history := history.(daily := daily, weekly := weekly);
      if m.modelType.Some? {
        history := history.(byModel := Extend(history.byModel, m.modelType.value, [m]));
      }
    }

    /** The bookkeeping of `evaluate_model` once the metrics are computed:
        the alerts are checked and the record is stored. */
    method EvaluateModel(m: MetricsRecord, dateKey: string, weekKey: string) returns (alerts: seq<Alert>)
      requires Valid()
      modifies this
      ensures alerts == Alerts(m.values, AlertThresholds)
      ensures history == Store(old(history), m, dateKey, weekKey) && Valid()
    {
      alerts := CheckForAlerts(m.values);
      StoreMetrics(m, dateKey, weekKey);
    }

  }
}
