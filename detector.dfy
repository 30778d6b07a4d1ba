/**
 * The per-patient concept-drift detector (backend/drift/detector.py).
 *
 * For every patient the detector keeps a buffer of feature vectors,
 * predictions and timestamps, a current user category and a history of
 * detections. A call appends one observation, cuts the buffer back to the
 * most recent window once it exceeds twice the window, and, when at least a
 * window of data is buffered, runs one detection method or all four and
 * combines them by vote. A detected drift is then typed by comparing the
 * recent physiological pattern against three category profiles.
 *
 * The four statistical tests (Kolmogorov-Smirnov and Welch, histogram KL,
 * k-means) are oracles: only the sample-count guards in front of them are
 * modelled. The spread measures `np.std` and `np.var` are oracles too; means
 * are exact. The wall clock is the parameter `now`.
 */
module Detector {
  import opened Common

  /** `window_size`'s default. */
  const DefaultWindow: int := 100
  /** Detections kept per patient. */
  const HistoryCap: nat := 100
  /** `_cluster_change` needs this many samples. */
  const ClusterMinSamples: nat := 50
  /** `_custom_pattern_detection` needs this many samples. */
  const CustomMinSamples: nat := 10
  /** Average relative deviation above which the custom test reports drift. */
  const DeviationThreshold: real := 0.3
  /** Score a new category must beat before the patient is switched to it. */
  const SwitchThreshold: real := 0.7
  /** The ensemble needs more than this share of votes ... */
  const ConsensusRatio: real := 0.5
  /** ... and a mean confidence above this. */
  const ConsensusConfidence: real := 0.6

  const Typical: string := "typical"
  const Auto: string := "auto"
  /** The drift type reported when nothing was detected. */
  const NoDrift: string := "none"

  type Rows = seq<seq<real>>

  // ---------------------------------------------------------------------
  // Category profiles and pattern metrics
  // ---------------------------------------------------------------------

  /** An `(expected_min, expected_max)` tuple of a profile. */
  datatype Range = Range(lo: real, hi: real)
  /** Every configured range has a positive lower bound, so the relative
      deviations below are well defined. */
  type PositiveRange = r: Range | 0.0 < r.lo <= r.hi witness Range(1.0, 1.0)

  /** A user category and its tuple-valued entries. The string-valued
      `variability` entry is not listed: no pattern metric carries that name,
      so it never takes part in a comparison. */
  datatype Category = Category(name: string, ranges: map<string, PositiveRange>)

  /** `user_categories`, in dict order. */
  const Categories: seq<Category> := [
    Category("typical", map[
      "heart_rate_mean" := Range(60.0, 100.0),
      "heart_rate_std" := Range(5.0, 20.0),
      "activity_level" := Range(0.3, 0.6)]),
    Category("athletic", map[
      "heart_rate_mean" := Range(40.0, 60.0),
      "heart_rate_std" := Range(2.0, 10.0),
      "activity_level" := Range(0.7, 1.0)]),
    Category("diver", map[
      "heart_rate_mean" := Range(50.0, 70.0),
      "heart_rate_std" := Range(10.0, 30.0),
      "activity_level" := Range(0.4, 0.8)])
  ]

  /** `user_categories.get(name, {})`. */
  function RangesIn(cats: seq<Category>, name: string): map<string, PositiveRange> {
    if |cats| == 0 then map[]
    else if cats[0].name == name then cats[0].ranges
    else RangesIn(cats[1..], name)
  }

  /** One entry of the dict `_extract_pattern_metrics` returns. */
  datatype Metric = Metric(name: string, value: real)

  /** The spread measures the metrics use, left abstract. */
  datatype Spread = Spread(std: seq<real> -> real, variance: seq<real> -> real)

  predicate HasWidth(rows: Rows, width: nat) {
    forall i :: 0 <= i < |rows| ==> |rows[i]| == width
  }

  /** A buffer numpy can turn into a two-dimensional array. */
  predicate Rectangular(rows: Rows) {
    |rows| == 0 || HasWidth(rows, |rows[0]|)
  }

  lemma {:induction false} TailRectangular(rows: Rows, n: int)
    requires Rectangular(rows)
    ensures Rectangular(PyTail(rows, n))
  {
    var r := PyTail(rows, n);
    if |r| > 0 {
      assert forall i :: 0 <= i < |r| ==> r[i] == rows[|rows| - |r| + i];
    }
  }

  /** `features[:, c]`. */
  function Column(rows: Rows, c: nat): (col: seq<real>)
    requires forall i :: 0 <= i < |rows| ==> c < |rows[i]|
    ensures |col| == |rows|
  {
    seq(|rows|, i requires 0 <= i < |rows| => rows[i][c])
  }

  /** `_extract_pattern_metrics`: heart rate from column 7, blood pressure from
      column 3, cholesterol from column 4 and activity from column 8, each
      group present only when the rows are wide enough, in dict order. */
  function ExtractPatternMetrics(rows: Rows, spread: Spread): (metrics: seq<Metric>)
    requires Rectangular(rows)
    ensures |rows| == 0 ==> metrics == []
  {
    if |rows| == 0 then []
    else
      var width := |rows[0]|;
      (if width > 7 then
         var hr := Column(rows, 7);
         [Metric("heart_rate_mean", Mean(hr)), Metric("heart_rate_std", spread.std(hr)),
          Metric("heart_rate_var", spread.variance(hr))]
       else []) +
      (if width > 3 then
         var bp := Column(rows, 3);
         var bpMean := Mean(bp);
         [Metric("bp_mean", bpMean),
          Metric("bp_variability", if bpMean > 0.0 then spread.std(bp) / bpMean else 0.0)]
       else []) +
      (if width > 4 then [Metric("chol_mean", Mean(Column(rows, 4)))] else []) +
      (if width > 8 then
         var activity := Column(rows, 8);
         [Metric("activity_level", Mean(activity)), Metric("activity_var", spread.variance(activity))]
       else [])
  }

  // ---------------------------------------------------------------------
  // The custom pattern test
  // ---------------------------------------------------------------------

  /** Relative distance of a value from a range: below it measured against
      the minimum, above it against the maximum, zero inside. */
  function Deviation(v: real, r: PositiveRange): (d: real)
    ensures 0.0 <= d
    ensures d == 0.0 <==> r.lo <= v <= r.hi
  {
    if v < r.lo then (r.lo - v) / r.lo
    else if v > r.hi then (v - r.hi) / r.hi
    else 0.0
  }

  /** The deviations of the metrics the profile has a range for, in order. */
  function Deviations(metrics: seq<Metric>, ranges: map<string, PositiveRange>): seq<real> {
    if |metrics| == 0 then []
    else
      var m := metrics[|metrics| - 1];
      Deviations(metrics[..|metrics| - 1], ranges) +
        (if m.name in ranges then [Deviation(m.value, ranges[m.name])] else [])
  }

  /** How many metrics the profile has a range for. */
  function Matches(metrics: seq<Metric>, ranges: map<string, PositiveRange>): (n: nat)
    ensures n <= |metrics|
  {
    if |metrics| == 0 then 0
    else Matches(metrics[..|metrics| - 1], ranges) + (if metrics[|metrics| - 1].name in ranges then 1 else 0)
  }

  /** One deviation per matched metric, each non-negative, and zero exactly for
      a metric inside its range. */
  lemma {:induction false} DeviationsShape(metrics: seq<Metric>, ranges: map<string, PositiveRange>)
    ensures |Deviations(metrics, ranges)| == Matches(metrics, ranges)
    ensures forall i :: 0 <= i < |Deviations(metrics, ranges)| ==> 0.0 <= Deviations(metrics, ranges)[i]
  {
    if |metrics| > 0 {
      DeviationsShape(metrics[..|metrics| - 1], ranges);
    }
  }

  /** `np.mean(deviations) if deviations else 0`. */
  function AverageDeviation(devs: seq<real>): real {
    if |devs| == 0 then 0.0 else Mean(devs)
  }

  /** A detection as the tests report it; the guards' early returns carry no
      method name. */
  datatype Detection = Detection(detected: bool, confidence: real, source: Option<string>)

  /** `{'drift_detected': False, 'confidence': 0.0}`. */
  const Quiet: Detection := Detection(false, 0.0, None)

  /** The verdict on an average deviation. */
  function CustomVerdict(avg: real): Detection {
    Detection(avg > DeviationThreshold, Min(avg, 1.0), Some("custom_pattern"))
  }

  /** `_custom_pattern_detection`: the recent window's metrics against the
      patient's current category. */
  function CustomTest(rows: Rows, window: int, category: string, spread: Spread): Detection
    requires Rectangular(rows)
  {
    if |rows| < CustomMinSamples then Quiet
    else
      TailRectangular(rows, window);
      var metrics := ExtractPatternMetrics(PyTail(rows, window), spread);
      CustomVerdict(AverageDeviation(Deviations(metrics, RangesIn(Categories, category))))
  }

  /** The custom test reports drift exactly when the average deviation exceeds
      0.3, with that average capped at 1 as confidence; without any matched
      metric it reports nothing. */
  lemma {:induction false} CustomVerdictRule(metrics: seq<Metric>, ranges: map<string, PositiveRange>)
    ensures var avg := AverageDeviation(Deviations(metrics, ranges));
      var v := CustomVerdict(avg);
      0.0 <= avg && 0.0 <= v.confidence <= 1.0 &&
      (v.detected <==> avg > DeviationThreshold) &&
      (avg <= 1.0 ==> v.confidence == avg) &&
      (Matches(metrics, ranges) == 0 ==> !v.detected && v.confidence == 0.0)
  {
    var devs := Deviations(metrics, ranges);
    DeviationsShape(metrics, ranges);
    if |devs| > 0 {
      SumNonNegative(devs);
    }
  }

  /** Metrics all inside the profile's ranges give no deviation at all. */
  lemma {:induction false} InsideProfileIsQuiet(metrics: seq<Metric>, ranges: map<string, PositiveRange>)
    requires forall i :: 0 <= i < |metrics| && metrics[i].name in ranges ==>
      ranges[metrics[i].name].lo <= metrics[i].value <= ranges[metrics[i].name].hi
    ensures forall i :: 0 <= i < |Deviations(metrics, ranges)| ==> Deviations(metrics, ranges)[i] == 0.0
    ensures AverageDeviation(Deviations(metrics, ranges)) == 0.0
  {
    var devs := Deviations(metrics, ranges);
    InsideProfileNoDeviation(metrics, ranges);
    if |devs| > 0 {
      SumConstant(devs, 0.0);
    }
  }

  lemma {:induction false} InsideProfileNoDeviation(metrics: seq<Metric>, ranges: map<string, PositiveRange>)
    requires forall i :: 0 <= i < |metrics| && metrics[i].name in ranges ==>
      ranges[metrics[i].name].lo <= metrics[i].value <= ranges[metrics[i].name].hi
    ensures forall i :: 0 <= i < |Deviations(metrics, ranges)| ==> Deviations(metrics, ranges)[i] == 0.0
  {
    if |metrics| > 0 {
      var k := |metrics| - 1;
      var front := metrics[..k];
      forall i | 0 <= i < |front| && front[i].name in ranges
        ensures ranges[front[i].name].lo <= front[i].value <= ranges[front[i].name].hi
      {
        assert front[i] == metrics[i];
      }
      InsideProfileNoDeviation(front, ranges);
      var m := metrics[k];
      if m.name in ranges {
        assert Deviation(m.value, ranges[m.name]) == 0.0;
      }
    }
  }

  // ---------------------------------------------------------------------
  // The ensemble vote
  // ---------------------------------------------------------------------

  /** How many results report drift. */
  function Votes(results: seq<Detection>): (n: nat)
    ensures n <= |results|
  {
    if |results| == 0 then 0
    else Votes(results[..|results| - 1]) + (if results[|results| - 1].detected then 1 else 0)
  }

  function Confidences(results: seq<Detection>): (c: seq<real>)
    ensures |c| == |results|
    ensures forall i :: 0 <= i < |results| ==> c[i] == results[i].confidence
  {
    seq(|results|, i requires 0 <= i < |results| => results[i].confidence)
  }

  /** `_combine_detection_results`: the vote ratio and the mean confidence. */
  function Ensemble(results: seq<Detection>): Detection {
    if |results| == 0 then Quiet
    else
      var n := |results| as real;
      var ratio := Votes(results) as real / n;
      var avg := Sum(Confidences(results)) / n;
      Detection(ratio > ConsensusRatio && avg > ConsensusConfidence, avg, Some("ensemble"))
  }

  lemma {:induction false} RatioAbove(a: real, n: real, t: real)
    requires 0.0 < n
    ensures a / n > t <==> a > t * n
  {
    if a / n > t {
      assert a == (a / n) * n;
    }
  }

  /** The ensemble reports drift exactly when more than half of the methods do
      and their mean confidence exceeds 0.6; the confidence it reports is that
      mean, so it stays in [0, 1] when every method's does. */
  lemma {:induction false} EnsembleRule(results: seq<Detection>)
    requires 0 < |results|
    ensures var n := |results| as real;
      var c := Sum(Confidences(results));
      (Ensemble(results).detected <==> 2 * Votes(results) > |results| && c > ConsensusConfidence * n) &&
      Ensemble(results).confidence == Mean(Confidences(results))
    ensures (forall i :: 0 <= i < |results| ==> 0.0 <= results[i].confidence <= 1.0) ==>
      0.0 <= Ensemble(results).confidence <= 1.0
  {
    var n := |results| as real;
    RatioAbove(Votes(results) as real, n, ConsensusRatio);
    RatioAbove(Sum(Confidences(results)), n, ConsensusConfidence);
    if forall i :: 0 <= i < |results| ==> 0.0 <= results[i].confidence <= 1.0 {
      MeanBounds(Confidences(results), 0.0, 1.0);
    }
  }

  /** Three of four votes with confidences 0.9, 0.8, 0.7 and 0.1 make a
      detection with confidence 0.625. */
  lemma {:induction false} EnsembleExample()
    ensures var r := Ensemble([Detection(true, 0.9, None), Detection(true, 0.8, None),
                               Detection(true, 0.7, None), Detection(false, 0.1, None)]);
      r.detected && r.confidence == 0.625
  {
    var a := [Detection(true, 0.9, None)];
    var b := a + [Detection(true, 0.8, None)];
    var c := b + [Detection(true, 0.7, None)];
    var rs := c + [Detection(false, 0.1, None)];
    assert Confidences(rs) == [0.9, 0.8, 0.7, 0.1];
    assert Sum([0.9, 0.8, 0.7, 0.1]) == 2.5 by {
      assert [0.9, 0.8, 0.7, 0.1][..3] == [0.9, 0.8, 0.7];
      assert [0.9, 0.8, 0.7][..2] == [0.9, 0.8];
      assert [0.9, 0.8][..1] == [0.9];
      assert [0.9][..0] == [];
    }
    assert a[..0] == [] && b[..1] == a && c[..2] == b && rs[..3] == c;
    assert Votes(a) == 1;
    assert Votes(b) == 2;
    assert Votes(c) == 3;
    assert Votes(rs) == 3;
    assert rs == [Detection(true, 0.9, None), Detection(true, 0.8, None),
                  Detection(true, 0.7, None), Detection(false, 0.1, None)];
    assert Ensemble(rs) == Detection(3.0 / 4.0 > ConsensusRatio && 2.5 / 4.0 > ConsensusConfidence, 2.5 / 4.0, Some("ensemble"));
  }

  // ---------------------------------------------------------------------
  // Typing a drift
  // ---------------------------------------------------------------------

  predicate InRange(v: real, r: PositiveRange) {
    r.lo <= v <= r.hi
  }

  /** How many matched metrics fall inside their range. */
  function InRangeCount(metrics: seq<Metric>, ranges: map<string, PositiveRange>): (n: nat)
    ensures n <= Matches(metrics, ranges)
  {
    if |metrics| == 0 then 0
    else
      var m := metrics[|metrics| - 1];
      InRangeCount(metrics[..|metrics| - 1], ranges) +
        (if m.name in ranges && InRange(m.value, ranges[m.name]) then 1 else 0)
  }

  /** A category's score: the in-range share of the matched metrics; no score
      without a match. */
  function CategoryScore(metrics: seq<Metric>, ranges: map<string, PositiveRange>): (s: Option<real>)
    ensures s.None? <==> Matches(metrics, ranges) == 0
    ensures s.Some? ==> 0.0 <= s.value <= 1.0
  {
    var matches := Matches(metrics, ranges);
    if matches == 0 then None
    else
      var inRange := InRangeCount(metrics, ranges);
      UnitRatio(inRange as real, matches as real);
      Some(inRange as real / matches as real)
  }

  /** Score of a category, zero when it has none. */
  function ScoreOrZero(metrics: seq<Metric>, c: Category): real {
    CategoryScore(metrics, c.ranges).GetOr(0.0)
  }

  /** The loop of `_determine_drift_type`: index of the category holding the
      best score, replaced only by a strictly higher one; none while no
      category has scored above zero. */
  function Winner(metrics: seq<Metric>, cats: seq<Category>): (w: Option<nat>)
    ensures w.Some? ==> w.value < |cats|
  {
    if |cats| == 0 then None
    else
      var k := |cats| - 1;
      var prev := Winner(metrics, cats[..k]);
      var best := if prev.Some? then ScoreOrZero(metrics, cats[prev.value]) else 0.0;
      if CategoryScore(metrics, cats[k].ranges).Some? && ScoreOrZero(metrics, cats[k]) > best then Some(k) else prev
  }

  /** The best score so far: that of the winner, or zero. */
  function BestScore(metrics: seq<Metric>, cats: seq<Category>): real {
    var w := Winner(metrics, cats);
    if w.Some? then ScoreOrZero(metrics, cats[w.value]) else 0.0
  }

  /** The category name `_determine_drift_type` returns. */
  function BestMatch(metrics: seq<Metric>, cats: seq<Category>): string {
    var w := Winner(metrics, cats);
    if w.Some? then cats[w.value].name else Typical
  }

  /** The winner is the FIRST category with the highest score, and that score
      is positive; with no positive score the answer is `typical`. */
  lemma {:induction false} WinnerIsFirstMaximum(metrics: seq<Metric>, cats: seq<Category>)
    ensures forall i :: 0 <= i < |cats| ==> ScoreOrZero(metrics, cats[i]) <= BestScore(metrics, cats)
    ensures 0.0 <= BestScore(metrics, cats)
    ensures Winner(metrics, cats).None? ==> BestScore(metrics, cats) == 0.0 && BestMatch(metrics, cats) == Typical
    ensures Winner(metrics, cats).Some? ==>
      var w := Winner(metrics, cats).value;
      0.0 < BestScore(metrics, cats) && CategoryScore(metrics, cats[w].ranges) == Some(BestScore(metrics, cats)) &&
      forall i :: 0 <= i < w ==> ScoreOrZero(metrics, cats[i]) < BestScore(metrics, cats)
  {
    if |cats| > 0 {
      var k := |cats| - 1;
      var front := cats[..k];
      WinnerIsFirstMaximum(metrics, front);
      assert forall i :: 0 <= i < k ==> front[i] == cats[i];
      if CategoryScore(metrics, cats[k].ranges).Some? {
        assert 0.0 <= ScoreOrZero(metrics, cats[k]);
      } else {
        assert ScoreOrZero(metrics, cats[k]) == 0.0;
      }
    }
  }

  // ---------------------------------------------------------------------
  // Per-patient records
  // ---------------------------------------------------------------------

  datatype CategoryChange = CategoryChange(category: string, timestamp: int, confidence: real)

  /** One `patient_data` entry. The statistics dict is reduced to whether it
      holds cluster centers yet. */
  datatype Patient = Patient(
    features: Rows, predictions: seq<int>, timestamps: seq<int>,
    hasCenters: bool, category: string, categoryHistory: seq<CategoryChange>)

  /** `_initialize_patient`. */
  function NewPatient(): (p: Patient)
    ensures p.category == Typical && !p.hasCenters
    ensures |p.features| == 0 && |p.predictions| == 0 && |p.timestamps| == 0 && |p.categoryHistory| == 0
  {
    Patient([], [], [], false, Typical, [])
  }

  /** The three buffers move together. */
  predicate Aligned(p: Patient) {
    |p.features| == |p.predictions| == |p.timestamps|
  }

  /** `_update_patient_data`: append, then keep `[-window:]` of each list once
      a list is longer than twice the window. */
  function Observe(p: Patient, features: seq<real>, prediction: int, now: int, window: int): Patient {
    var f := p.features + [features];
    var pr := p.predictions + [prediction];
    var t := p.timestamps + [now];
    if |f| > 2 * window then
      p.(features := PyTail(f, window), predictions := PyTail(pr, window), timestamps := PyTail(t, window))
    else p.(features := f, predictions := pr, timestamps := t)
  }

  /** The length `s[-n:]` keeps for a positive n: at most n, exactly n when
      the list is that long. */
  lemma {:induction false} TailLength<T>(s: seq<T>, n: int)
    requires 0 < n
    ensures |PyTail(s, n)| <= n
    ensures n <= |s| ==> |PyTail(s, n)| == n
  {
  }

  /** For a non-negative n, `s[-n:]` of a non-empty list keeps its last
      element. */
  lemma {:induction false} TailKeepsLast<T>(s: seq<T>, n: int)
    requires 0 <= n && 0 < |s|
    ensures 0 < |PyTail(s, n)| && PyTail(s, n)[|PyTail(s, n)| - 1] == s[|s| - 1]
  {
    var r := PyTail(s, n);
    assert 0 < |r|;
    assert r[|r| - 1] == s[|s| - |r|..][|r| - 1];
  }

  /** The buffers stay aligned and are a suffix of the old ones plus the new
      observation; with a non-negative window they end with it. Nothing else
      in the record changes. */
  lemma {:induction false} ObserveAppends(p: Patient, features: seq<real>, prediction: int, now: int, window: int)
    requires Aligned(p)
    ensures var q := Observe(p, features, prediction, now, window);
      Aligned(q) &&
      q.features == (p.features + [features])[|p.features| + 1 - |q.features|..] &&
      q.category == p.category && q.categoryHistory == p.categoryHistory && q.hasCenters == p.hasCenters
    ensures 0 <= window ==>
      var q := Observe(p, features, prediction, now, window);
      0 < |q.features| && q.features[|q.features| - 1] == features &&
      q.predictions[|q.predictions| - 1] == prediction && q.timestamps[|q.timestamps| - 1] == now
  {
    var f := p.features + [features];
    var pr := p.predictions + [prediction];
    var t := p.timestamps + [now];
    var q := Observe(p, features, prediction, now, window);
    if |f| > 2 * window {
      assert q == p.(features := PyTail(f, window), predictions := PyTail(pr, window), timestamps := PyTail(t, window));
      if 0 <= window {
        TailKeepsLast(f, window);
        TailKeepsLast(pr, window);
        TailKeepsLast(t, window);
      }
    } else {
      assert q == p.(features := f, predictions := pr, timestamps := t);
    }
  }

  /** With a positive window a buffer of at most twice the window stays so,
      and one that overflows is cut to exactly the window. */
  lemma {:induction false} ObserveKeepsWindow(p: Patient, features: seq<real>, prediction: int, now: int, window: int)
    requires 0 < window && |p.features| <= 2 * window
    ensures |Observe(p, features, prediction, now, window).features| <= 2 * window
    ensures |p.features| == 2 * window ==> |Observe(p, features, prediction, now, window).features| == window
  {
    TailLength(p.features + [features], window);
  }

  /** `ObserveKeepsWindow` for any window, as a function body can use it. */
  lemma {:induction false} ObserveWithinWindow(p: Patient, features: seq<real>, prediction: int, now: int, window: int)
    ensures 0 < window && |p.features| <= 2 * window ==>
      |Observe(p, features, prediction, now, window).features| <= 2 * window
  {
    if 0 < window && |p.features| <= 2 * window {
      ObserveKeepsWindow(p, features, prediction, now, window);
    }
  }

  /** A zero window never cuts: Python's `[-0:]` is the whole list. */
  lemma {:induction false} ZeroWindowKeepsEverything(p: Patient, features: seq<real>, prediction: int, now: int)
    ensures Observe(p, features, prediction, now, 0).features == p.features + [features]
  {
  }

  /** The category switch of `_determine_drift_type`. */
  function Reclassify(p: Patient, best: string, score: real, now: int): Patient {
    if best != p.category && score > SwitchThreshold then
      p.(category := best, categoryHistory := p.categoryHistory + [CategoryChange(best, now, score)])
    else p
  }

  /** The category changes, and its history grows by one entry, exactly when
      the best match differs from it and scores above 0.7. */
  lemma {:induction false} SwitchRule(p: Patient, best: string, score: real, now: int)
    ensures var q := Reclassify(p, best, score, now);
      (q.category != p.category <==> best != p.category && score > SwitchThreshold) &&
      (q.category != p.category ==> q.category == best && q.categoryHistory == p.categoryHistory + [CategoryChange(best, now, score)]) &&
      (q.category == p.category ==> q == p)
  {
  }

  /** `[-100:]` after the append. */
  function AppendCapped<T>(h: seq<T>, e: T): (r: seq<T>)
    ensures |r| <= HistoryCap && |r| <= |h| + 1 && 0 < |r| && r[|r| - 1] == e
    ensures r == (h + [e])[|h| + 1 - |r|..]
    ensures |h| < HistoryCap ==> r == h + [e]
  {
    TailLength(h + [e], HistoryCap);
    TailKeepsLast(h + [e], HistoryCap);
    PyTail(h + [e], HistoryCap)
  }

  // ---------------------------------------------------------------------
  // The detection methods
  // ---------------------------------------------------------------------

  /** What a statistical test computes once past its guard. */
  datatype Reading = Reading(detected: bool, confidence: real)

  /** The numerical bodies of the three library-backed tests, on the buffer
      (the clustering one on the recent window); `None` stands for an
      exception. */
  datatype Oracles = Oracles(
    statistical: Rows -> Option<Reading>,
    distribution: Rows -> Option<Reading>,
    clustering: Rows -> Option<Reading>,
    spread: Spread)

  predicate UnitReading(r: Option<Reading>) {
    r.Some? ==> 0.0 <= r.value.confidence <= 1.0
  }

  /** Each test's confidence lies in [0, 1]: one minus a p-value, or a
      non-negative quantity capped at one. */
  ghost predicate SoundOracles(o: Oracles) {
    forall rows: Rows :: UnitReading(o.statistical(rows)) && UnitReading(o.distribution(rows)) && UnitReading(o.clustering(rows))
  }

  function Named(r: Reading, name: string): Detection {
    Detection(r.detected, r.confidence, Some(name))
  }

  /** `_statistical_test`: nothing below twice the window. */
  function StatisticalTest(rows: Rows, window: int, o: Oracles): Option<Detection> {
    if |rows| < 2 * window then Some(Quiet)
    else match o.statistical(rows)
      case None => None
      case Some(r) => Some(Named(r, "statistical"))
  }

  /** `_distribution_change`: nothing below twice the window. */
  function DistributionTest(rows: Rows, window: int, o: Oracles): Option<Detection> {
    if |rows| < 2 * window then Some(Quiet)
    else match o.distribution(rows)
      case None => None
      case Some(r) => Some(Named(r, "distribution"))
  }

  /** `_cluster_change`: nothing below 50 samples; a run without stored
      centers reports nothing; every completed run stores centers. The second
      component says whether centers are stored afterwards. */
  function ClusterTest(rows: Rows, window: int, hasCenters: bool, o: Oracles): Option<(Detection, bool)> {
    if |rows| < ClusterMinSamples then Some((Quiet, hasCenters))
    else match o.clustering(PyTail(rows, window))
      case None => None
      case Some(r) =>
        Some((if hasCenters then Named(r, "clustering") else Detection(false, 0.0, Some("clustering")), true))
  }

  function KeepCenters(d: Option<Detection>, hasCenters: bool): Option<(Detection, bool)> {
    match d
    case None => None
    case Some(r) => Some((r, hasCenters))
  }

  /** `auto`: the four tests in dict order, combined by vote. An exception
      ends the call. */
  function RunAll(p: Patient, window: int, o: Oracles): Option<(Detection, bool)>
    requires Rectangular(p.features)
  {
    var rows := p.features;
    match StatisticalTest(rows, window, o)
    case None => None
    case Some(st) =>
      match DistributionTest(rows, window, o)
      case None => None
      case Some(dt) =>
        match ClusterTest(rows, window, p.hasCenters, o)
        case None => None
        case Some(ct) =>
          Some((Ensemble([st, dt, ct.0, CustomTest(rows, window, p.category, o.spread)]), ct.1))
  }

  /** The method dispatch of `detect_drift`: `auto` runs all four tests; a
      known name runs that test; any other name runs the statistical test. */
  function RunMethod(p: Patient, window: int, name: string, o: Oracles): Option<(Detection, bool)>
    requires Rectangular(p.features)
  {
    var rows := p.features;
    if name == Auto then RunAll(p, window, o)
    else if name == "distribution" then KeepCenters(DistributionTest(rows, window, o), p.hasCenters)
    else if name == "clustering" then ClusterTest(rows, window, p.hasCenters, o)
    else if name == "custom" then Some((CustomTest(rows, window, p.category, o.spread), p.hasCenters))
    else KeepCenters(StatisticalTest(rows, window, o), p.hasCenters)
  }

  /** The two window-based tests report nothing below twice the window, the
      clustering test nothing below 50 samples or on its first run. */
  lemma {:induction false} GuardsAreQuiet(rows: Rows, window: int, o: Oracles)
    ensures |rows| < 2 * window ==> StatisticalTest(rows, window, o) == Some(Quiet) && DistributionTest(rows, window, o) == Some(Quiet)
    ensures |rows| < ClusterMinSamples ==> ClusterTest(rows, window, false, o) == Some((Quiet, false))
    ensures ClusterTest(rows, window, false, o).Some? ==>
      !ClusterTest(rows, window, false, o).value.0.detected && ClusterTest(rows, window, false, o).value.0.confidence == 0.0
  {
  }

  /** A name outside the four, other than `auto`, behaves as `statistical`. */
  lemma {:induction false} UnknownMethodIsStatistical(p: Patient, window: int, name: string, o: Oracles)
    requires Rectangular(p.features)
    requires name != Auto && name != "statistical" && name != "distribution" && name != "clustering" && name != "custom"
    ensures RunMethod(p, window, name, o) == RunMethod(p, window, "statistical", o)
  {
  }

  predicate UnitConfidence(d: Detection) {
    0.0 <= d.confidence <= 1.0
  }

  lemma {:induction false} TestsConfidence(rows: Rows, window: int, hasCenters: bool, o: Oracles)
    requires SoundOracles(o)
    ensures StatisticalTest(rows, window, o).Some? ==> UnitConfidence(StatisticalTest(rows, window, o).value)
    ensures DistributionTest(rows, window, o).Some? ==> UnitConfidence(DistributionTest(rows, window, o).value)
    ensures ClusterTest(rows, window, hasCenters, o).Some? ==> UnitConfidence(ClusterTest(rows, window, hasCenters, o).value.0)
  {
    assert UnitReading(o.statistical(rows)) && UnitReading(o.distribution(rows));
    assert UnitReading(o.clustering(PyTail(rows, window)));
  }

  lemma {:induction false} CustomConfidence(rows: Rows, window: int, category: string, spread: Spread)
    requires Rectangular(rows)
    ensures UnitConfidence(CustomTest(rows, window, category, spread))
  {
    if |rows| >= CustomMinSamples {
      TailRectangular(rows, window);
      var metrics := ExtractPatternMetrics(PyTail(rows, window), spread);
      CustomVerdictRule(metrics, RangesIn(Categories, category));
    }
  }

  /** Combining four detections with confidences in [0, 1] gives one. */
  lemma {:induction false} CombinedConfidence(st: Detection, dt: Detection, ct: Detection, cu: Detection)
    requires UnitConfidence(st) && UnitConfidence(dt) && UnitConfidence(ct) && UnitConfidence(cu)
    ensures UnitConfidence(Ensemble([st, dt, ct, cu]))
  {
    var results := [st, dt, ct, cu];
    assert forall i :: 0 <= i < |results| ==> UnitConfidence(results[i]);
    EnsembleRule(results);
  }

  /** `auto` reports a confidence in [0, 1]. */
  lemma {:induction false} RunAllConfidence(p: Patient, window: int, o: Oracles)
    requires Rectangular(p.features) && SoundOracles(o)
    ensures RunAll(p, window, o).Some? ==> UnitConfidence(RunAll(p, window, o).value.0)
  {
    var rows := p.features;
    if RunAll(p, window, o).Some? {
      TestsConfidence(rows, window, p.hasCenters, o);
      CustomConfidence(rows, window, p.category, o.spread);
      CombinedConfidence(StatisticalTest(rows, window, o).value, DistributionTest(rows, window, o).value,
                         ClusterTest(rows, window, p.hasCenters, o).value.0, CustomTest(rows, window, p.category, o.spread));
    }
  }

  /** Every detection the dispatch produces has its confidence in [0, 1]. */
  lemma {:induction false} RunMethodConfidence(p: Patient, window: int, name: string, o: Oracles)
    requires Rectangular(p.features) && SoundOracles(o)
    ensures RunMethod(p, window, name, o).Some? ==> UnitConfidence(RunMethod(p, window, name, o).value.0)
  {
    if name == Auto {
      RunAllConfidence(p, window, o);
    } else {
      TestsConfidence(p.features, window, p.hasCenters, o);
      CustomConfidence(p.features, window, p.category, o.spread);
    }
  }

  // ---------------------------------------------------------------------
  // The detector's state and one call of `detect_drift`
  // ---------------------------------------------------------------------

  /** A `detection_history` entry: a copy of the result taken before the
      drift type is attached, stamped with the time. */
  datatype HistoryEntry = HistoryEntry(result: Detection, timestamp: int)

  /** `patient_data` and `detection_history` share their keys, the patients
      in the order they were first seen (`order`); entries of the two maps
      outside `order` are not part of the dicts. */
  datatype DetectorState = DetectorState(
    window: int, order: seq<string>, patients: map<string, Patient>, history: map<string, seq<HistoryEntry>>)

  /** A tracked patient: aligned buffers within twice a positive window, and
      at most 100 detections. */
  ghost predicate Tracked(s: DetectorState, id: string) {
    id in s.patients && id in s.history && Aligned(s.patients[id]) &&
    (0 < s.window ==> |s.patients[id].features| <= 2 * s.window) &&
    |s.history[id]| <= HistoryCap
  }

  ghost predicate WellFormed(s: DetectorState) {
    (forall i, j :: 0 <= i < j < |s.order| ==> s.order[i] != s.order[j]) &&
    (forall i :: 0 <= i < |s.order| ==> Tracked(s, s.order[i]))
  }

  function InitialDetector(window: int): (s: DetectorState)
    ensures WellFormed(s)
  {
    DetectorState(window, [], map[], map[])
  }

  /** What `detect_drift` returns. */
  datatype DriftOutcome =
    | InsufficientData(dataPoints: nat)
    | Assessed(result: Detection, driftType: string)
    | DetectionFailed

  /** The `drift_detected` and `confidence` entries of the returned dict. */
  function Reported(out: DriftOutcome): (bool, real) {
    match out
    case Assessed(r, _) => (r.detected, r.confidence)
    case _ => (false, 0.0)
  }

  /** Replacing a tracked patient's record and history by ones within the
      bounds keeps the state well formed. */
  lemma {:induction false} ReplaceKeepsWellFormed(s: DetectorState, id: string, q: Patient, h: seq<HistoryEntry>)
    requires WellFormed(s) && id in s.order
    requires Aligned(q) && (0 < s.window ==> |q.features| <= 2 * s.window) && |h| <= HistoryCap
    ensures WellFormed(s.(patients := s.patients[id := q], history := s.history[id := h]))
  {
    var r := s.(patients := s.patients[id := q], history := s.history[id := h]);
    assert forall i :: 0 <= i < |s.order| ==> Tracked(s, s.order[i]) ==> Tracked(r, s.order[i]);
  }

  /** `_initialize_patient` when the patient is new. */
  function Admit(s: DetectorState, id: string): (r: DetectorState)
    requires WellFormed(s)
    ensures WellFormed(r) && id in r.order
  {
    if id in s.order then s
    else
      var r := s.(order := s.order + [id], patients := s.patients[id := NewPatient()], history := s.history[id := []]);
      assert forall i :: 0 <= i < |s.order| ==> s.order[i] != id;
      assert forall i :: 0 <= i < |s.order| ==> Tracked(s, s.order[i]) ==> Tracked(r, s.order[i]);
      r
  }

  /** `_update_patient_data` on a tracked patient. */
  function Record(s: DetectorState, id: string, features: seq<real>, prediction: int, now: int): (r: DetectorState)
    requires WellFormed(s) && id in s.order
    ensures WellFormed(r) && r.order == s.order && r.history == s.history
    ensures r == s.(patients := s.patients[id := Observe(s.patients[id], features, prediction, now, s.window)])
  {
    RecordKeepsWellFormed(s, id, features, prediction, now);
    s.(patients := s.patients[id := Observe(s.patients[id], features, prediction, now, s.window)])
  }

  lemma {:induction false} RecordKeepsWellFormed(s: DetectorState, id: string, features: seq<real>, prediction: int, now: int)
    requires WellFormed(s) && id in s.order
    ensures WellFormed(s.(patients := s.patients[id := Observe(s.patients[id], features, prediction, now, s.window)]))
  {
    var p := s.patients[id];
    assert Tracked(s, id);
    ObserveAppends(p, features, prediction, now, s.window);
    ObserveWithinWindow(p, features, prediction, now, s.window);
    var q := Observe(p, features, prediction, now, s.window);
    ReplaceKeepsWellFormed(s, id, q, s.history[id]);
    assert s.history[id := s.history[id]] == s.history;
  }

  /** `_initialize_patient` followed by `_update_patient_data`. */
  function Prepare(s: DetectorState, id: string, features: seq<real>, prediction: int, now: int): (r: DetectorState)
    requires WellFormed(s)
    ensures WellFormed(r) && id in r.order
    ensures r.order == Admit(s, id).order && r.history == Admit(s, id).history
  {
    Record(Admit(s, id), id, features, prediction, now)
  }

  /** `detect_drift`. */
  function Detect(s: DetectorState, o: Oracles, features: seq<real>, prediction: int, id: string, name: string, now: int): (r: (DetectorState, DriftOutcome))
    requires WellFormed(s)
    ensures WellFormed(r.0) && r.0.order == Admit(s, id).order
    ensures id in r.0.patients && id in r.0.history
  {
    var s2 := Prepare(s, id, features, prediction, now);
    var n := |s2.patients[id].features|;
    if n < s.window then (s2, InsufficientData(n))
    else Assess(s2, o, id, name, now)
  }

  /** The part of `detect_drift` past the data gate. A buffer numpy cannot
      stack raises, as does any test; either way nothing more changes. */
  function Assess(s: DetectorState, o: Oracles, id: string, name: string, now: int): (r: (DetectorState, DriftOutcome))
    requires WellFormed(s) && id in s.order
    ensures WellFormed(r.0) && r.0.order == s.order
  {
    var p := s.patients[id];
    if !Rectangular(p.features) then (s, DetectionFailed)
    else Conclude(s, o.spread, id, now, RunMethod(p, s.window, name, o))
  }

  /** What follows the dispatch: an exception ends the call; a completed run
      is stored and, when it detected drift, typed. */
  function Conclude(s: DetectorState, spread: Spread, id: string, now: int, run: Option<(Detection, bool)>): (r: (DetectorState, DriftOutcome))
    requires WellFormed(s) && id in s.order && Rectangular(s.patients[id].features)
    ensures WellFormed(r.0) && r.0.order == s.order
  {
    match run
    case None => (s, DetectionFailed)
    case Some(run) =>
      var s3 := Store(s, id, run.0, run.1, now);
      if run.0.detected then Classify(s3, spread, id, now, run.0) else (s3, Assessed(run.0, NoDrift))
  }

  /** The cluster centers the run stored, and `_update_detection_history`. */
  function Store(s: DetectorState, id: string, result: Detection, centers: bool, now: int): (r: DetectorState)
    requires WellFormed(s) && id in s.order
    ensures WellFormed(r) && r.order == s.order
    ensures r.patients == s.patients[id := s.patients[id].(hasCenters := centers)]
    ensures r.history == s.history[id := AppendCapped(s.history[id], HistoryEntry(result, now))]
  {
    assert Tracked(s, id);
    ReplaceKeepsWellFormed(s, id, s.patients[id].(hasCenters := centers), AppendCapped(s.history[id], HistoryEntry(result, now)));
    s.(patients := s.patients[id := s.patients[id].(hasCenters := centers)],
       history := s.history[id := AppendCapped(s.history[id], HistoryEntry(result, now))])
  }

  /** The best-matching category on the recent window, and its score. */
  function Typing(features: Rows, window: int, spread: Spread): (string, real)
    requires Rectangular(features)
  {
    TailRectangular(features, window);
    var metrics := ExtractPatternMetrics(PyTail(features, window), spread);
    (BestMatch(metrics, Categories), BestScore(metrics, Categories))
  }

  /** `_determine_drift_type` on the recent window: the best match is
      returned, and the patient switched to it when the switch rule allows. */
  function Classify(s: DetectorState, spread: Spread, id: string, now: int, result: Detection): (r: (DetectorState, DriftOutcome))
    requires WellFormed(s) && id in s.order && Rectangular(s.patients[id].features)
    ensures WellFormed(r.0) && r.0.order == s.order && r.0.history == s.history
    ensures var t := Typing(s.patients[id].features, s.window, spread);
      r.1 == Assessed(result, t.0) && r.0 == s.(patients := s.patients[id := Reclassify(s.patients[id], t.0, t.1, now)])
  {
    var p := s.patients[id];
    assert Tracked(s, id);
    var (best, score) := Typing(p.features, s.window, spread);
    var q := Reclassify(p, best, score, now);
    ReplaceKeepsWellFormed(s, id, q, s.history[id]);
    assert s.history[id := s.history[id]] == s.history;
    (s.(patients := s.patients[id := q]), Assessed(result, best))
  }

  // ---------------------------------------------------------------------
  // Properties of a call
  // ---------------------------------------------------------------------

  /** After the dispatch the buffer stays; an exception records nothing; a
      completed run appends its result to the patient's history. */
  lemma {:induction false} ConcludeRecords(s: DetectorState, spread: Spread, id: string, now: int, run: Option<(Detection, bool)>)
    requires WellFormed(s) && id in s.order && Rectangular(s.patients[id].features)
    ensures var (s', out) := Conclude(s, spread, id, now, run);
      s'.patients[id].features == s.patients[id].features && !out.InsufficientData? &&
      (out.DetectionFailed? ==> s'.history == s.history) &&
      (out.Assessed? ==> s'.history == s.history[id := AppendCapped(s.history[id], HistoryEntry(out.result, now))])
  {
    if run.Some? {
      var s3 := Store(s, id, run.value.0, run.value.1, now);
      assert s3.patients[id].features == s.patients[id].features;
    }
  }

  /** After the dispatch, a run without a detection reports the type `none`
      and leaves the category. */
  lemma {:induction false} ConcludeQuiet(s: DetectorState, spread: Spread, id: string, now: int, run: Option<(Detection, bool)>)
    requires WellFormed(s) && id in s.order && Rectangular(s.patients[id].features)
    ensures var (s', out) := Conclude(s, spread, id, now, run);
      out.Assessed? && !out.result.detected ==> out.driftType == NoDrift && s'.patients[id].category == s.patients[id].category
  {
  }

  /** After the dispatch, a detected drift is typed by the best match on the
      recent window, and the category follows the switch rule. */
  lemma {:induction false} ConcludeTyped(s: DetectorState, spread: Spread, id: string, now: int, run: Option<(Detection, bool)>)
    requires WellFormed(s) && id in s.order && Rectangular(s.patients[id].features)
    ensures var (s', out) := Conclude(s, spread, id, now, run);
      var p := s.patients[id];
      out.Assessed? && out.result.detected ==> (
        var t := Typing(p.features, s.window, spread);
        var q := Reclassify(p, t.0, t.1, now);
        out.driftType == t.0 && s'.patients[id].category == q.category && s'.patients[id].categoryHistory == q.categoryHistory)
  {
    var p := s.patients[id];
    match run
    case None =>
      assert Conclude(s, spread, id, now, run).1 == DetectionFailed;
    case Some(r) =>
      var s3 := Store(s, id, r.0, r.1, now);
      if !r.0.detected {
        assert Conclude(s, spread, id, now, run).1 == Assessed(r.0, NoDrift);
      } else {
        var p3 := s3.patients[id];
        assert p3 == p.(hasCenters := r.1);
        var t := Typing(p.features, s.window, spread);
        assert Conclude(s, spread, id, now, run) == Classify(s3, spread, id, now, r.0);
        assert Reclassify(p3, t.0, t.1, now).category == Reclassify(p, t.0, t.1, now).category;
        assert Reclassify(p3, t.0, t.1, now).categoryHistory == Reclassify(p, t.0, t.1, now).categoryHistory;
      }
  }

  /** Past the data gate the buffer stays; an exception records nothing; a
      completed run appends its result to the patient's history. */
  lemma {:induction false} AssessRecords(s: DetectorState, o: Oracles, id: string, name: string, now: int)
    requires WellFormed(s) && id in s.order
    ensures var (s', out) := Assess(s, o, id, name, now);
      s'.order == s.order && s'.patients[id].features == s.patients[id].features && !out.InsufficientData? &&
      (out.DetectionFailed? ==> s'.history == s.history) &&
      (out.Assessed? ==> s'.history == s.history[id := AppendCapped(s.history[id], HistoryEntry(out.result, now))])
  {
    var p := s.patients[id];
    if Rectangular(p.features) {
      ConcludeRecords(s, o.spread, id, now, RunMethod(p, s.window, name, o));
    }
  }

  /** Past the data gate, a run without a detection reports the type `none`
      and leaves the category. */
  lemma {:induction false} AssessQuiet(s: DetectorState, o: Oracles, id: string, name: string, now: int)
    requires WellFormed(s) && id in s.order
    ensures var (s', out) := Assess(s, o, id, name, now);
      out.Assessed? && !out.result.detected ==> out.driftType == NoDrift && s'.patients[id].category == s.patients[id].category
  {
    var p := s.patients[id];
    if Rectangular(p.features) {
      ConcludeQuiet(s, o.spread, id, now, RunMethod(p, s.window, name, o));
    }
  }

  /** Past the data gate, a detected drift is typed by the best match on the
      recent window, and the category follows the switch rule. */
  lemma {:induction false} AssessTyped(s: DetectorState, o: Oracles, id: string, name: string, now: int)
    requires WellFormed(s) && id in s.order
    ensures var (s', out) := Assess(s, o, id, name, now);
      var p := s.patients[id];
      out.Assessed? && out.result.detected ==> (
        Rectangular(p.features) &&
        var t := Typing(p.features, s.window, o.spread);
        var q := Reclassify(p, t.0, t.1, now);
        out.driftType == t.0 && s'.patients[id].category == q.category && s'.patients[id].categoryHistory == q.categoryHistory)
  {
    var p := s.patients[id];
    if Rectangular(p.features) {
      ConcludeTyped(s, o.spread, id, now, RunMethod(p, s.window, name, o));
    }
  }

  /** A new patient starts in `typical`, with empty buffers, no detections
      and no cluster centers, so its first clustering run reports nothing. */
  lemma {:induction false} NewPatientStartsTypical(s: DetectorState, id: string)
    requires WellFormed(s) && id !in s.order
    ensures Admit(s, id).patients[id] == NewPatient() && Admit(s, id).history[id] == []
    ensures Admit(s, id).order == s.order + [id]
  {
  }

  /** The data gate: below a window of samples the call reports no drift with
      confidence 0 and leaves every detection history as it was. */
  lemma {:induction false} InsufficientDataGate(s: DetectorState, o: Oracles, features: seq<real>, prediction: int, id: string, name: string, now: int)
    requires WellFormed(s)
    ensures var (s', out) := Detect(s, o, features, prediction, id, name, now);
      (out.InsufficientData? <==> |s'.patients[id].features| < s.window) &&
      (out.InsufficientData? ==> (
        Reported(out) == (false, 0.0) && s'.history == Admit(s, id).history &&
        out.dataPoints == |s'.patients[id].features|))
  {
    AssessRecords(Prepare(s, id, features, prediction, now), o, id, name, now);
  }

  /** An exception reports no drift with confidence 0 and records nothing. */
  lemma {:induction false} FailureRecordsNothing(s: DetectorState, o: Oracles, features: seq<real>, prediction: int, id: string, name: string, now: int)
    requires WellFormed(s)
    requires Detect(s, o, features, prediction, id, name, now).1.DetectionFailed?
    ensures var (s', out) := Detect(s, o, features, prediction, id, name, now);
      Reported(out) == (false, 0.0) && s'.history == Admit(s, id).history
  {
    AssessRecords(Prepare(s, id, features, prediction, now), o, id, name, now);
  }

  /** Every call records the observation: the patient's buffer after the call
      is the buffer `_update_patient_data` produces. */
  lemma {:induction false} CallRecordsObservation(s: DetectorState, o: Oracles, features: seq<real>, prediction: int, id: string, name: string, now: int)
    requires WellFormed(s)
    ensures var s1 := Admit(s, id);
      Detect(s, o, features, prediction, id, name, now).0.patients[id].features ==
        Observe(s1.patients[id], features, prediction, now, s.window).features
  {
    AssessRecords(Prepare(s, id, features, prediction, now), o, id, name, now);
  }

  /** A completed detection appends its result, without a drift type, to the
      patient's history, keeping the most recent 100; no other patient's
      history changes. */
  lemma {:induction false} AssessedCallRecords(s: DetectorState, o: Oracles, features: seq<real>, prediction: int, id: string, name: string, now: int)
    requires WellFormed(s)
    requires Detect(s, o, features, prediction, id, name, now).1.Assessed?
    ensures var s1 := Admit(s, id);
      var (s', out) := Detect(s, o, features, prediction, id, name, now);
      s'.history == s1.history[id := AppendCapped(s1.history[id], HistoryEntry(out.result, now))] &&
      |s'.history[id]| <= HistoryCap && s'.order == s1.order
  {
    AssessRecords(Prepare(s, id, features, prediction, now), o, id, name, now);
    var s' := Detect(s, o, features, prediction, id, name, now).0;
    assert Tracked(s', id);
  }

  /** Without a detection the drift type is `none` and the category stays. */
  lemma {:induction false} QuietCallKeepsCategory(s: DetectorState, o: Oracles, features: seq<real>, prediction: int, id: string, name: string, now: int)
    requires WellFormed(s)
    requires Detect(s, o, features, prediction, id, name, now).1.Assessed?
    ensures var (s', out) := Detect(s, o, features, prediction, id, name, now);
      !out.result.detected ==> out.driftType == NoDrift && s'.patients[id].category == Admit(s, id).patients[id].category
  {
    AssessQuiet(Prepare(s, id, features, prediction, now), o, id, name, now);
  }

  /** A detected drift is typed by the best match on the recent window of the
      updated buffer, and the category follows the switch rule. */
  lemma {:induction false} DetectedCallTyping(s: DetectorState, o: Oracles, features: seq<real>, prediction: int, id: string, name: string, now: int)
    requires WellFormed(s)
    requires Detect(s, o, features, prediction, id, name, now).1.Assessed?
    ensures var p := Prepare(s, id, features, prediction, now).patients[id];
      var (s', out) := Detect(s, o, features, prediction, id, name, now);
      out.result.detected ==> (
        Rectangular(p.features) &&
        var t := Typing(p.features, s.window, o.spread);
        var q := Reclassify(p, t.0, t.1, now);
        out.driftType == t.0 && s'.patients[id].category == q.category && s'.patients[id].categoryHistory == q.categoryHistory)
  {
    AssessTyped(Prepare(s, id, features, prediction, now), o, id, name, now);
  }

  /** With sound oracles the reported confidence always lies in [0, 1]. */
  lemma {:induction false} ReportedConfidence(s: DetectorState, o: Oracles, features: seq<real>, prediction: int, id: string, name: string, now: int)
    requires WellFormed(s) && SoundOracles(o)
    ensures var out := Detect(s, o, features, prediction, id, name, now).1;
      0.0 <= Reported(out).1 <= 1.0
  {
    var p := Prepare(s, id, features, prediction, now).patients[id];
    if Rectangular(p.features) {
      RunMethodConfidence(p, s.window, name, o);
    }
  }

  /** Every tracked patient's buffers stay aligned and, for a positive window,
      within twice the window; its history holds at most 100 detections. */
  lemma {:induction false} CallKeepsBounds(s: DetectorState, o: Oracles, features: seq<real>, prediction: int, id: string, name: string, now: int)
    requires WellFormed(s)
    ensures var s' := Detect(s, o, features, prediction, id, name, now).0;
      forall i :: 0 <= i < |s'.order| ==>
        var p := s'.patients[s'.order[i]];
        Aligned(p) && (0 < s.window ==> |p.features| <= 2 * s.window) && |s'.history[s'.order[i]]| <= HistoryCap
  {
    var s' := Detect(s, o, features, prediction, id, name, now).0;
    assert forall i :: 0 <= i < |s'.order| ==> Tracked(s', s'.order[i]);
  }

  // ---------------------------------------------------------------------
  // Queries
  // ---------------------------------------------------------------------

  /** What `get_patient_category` returns. */
  datatype CategoryView =
    | Unknown
    | Known(category: string, categoryHistory: seq<CategoryChange>, dataPoints: nat, lastUpdated: Option<int>)

  /** `get_patient_category`: `unknown` for a patient never seen; otherwise
      the current category, its changes, the buffered sample count and the
      time of the latest buffered sample. */
  function PatientCategory(s: DetectorState, id: string): CategoryView
    requires WellFormed(s)
  {
    if id !in s.order then Unknown
    else
      var p := s.patients[id];
      Known(p.category, p.categoryHistory, |p.features|,
            if |p.timestamps| == 0 then None else Some(p.timestamps[|p.timestamps| - 1]))
  }

  /** `get_drift_history`: the recorded detections, empty for a patient never
      seen. */
  function DriftHistory(s: DetectorState, id: string): seq<HistoryEntry> {
    if id in s.order && id in s.history then s.history[id] else []
  }

  /** After a call with a non-negative window the patient is known, holds at
      least one sample, and was last updated at the call's time. */
  lemma {:induction false} CallMakesPatientKnown(s: DetectorState, o: Oracles, features: seq<real>, prediction: int, id: string, name: string, now: int)
    requires WellFormed(s) && 0 <= s.window
    ensures var v := PatientCategory(Detect(s, o, features, prediction, id, name, now).0, id);
      v.Known? && 0 < v.dataPoints && v.lastUpdated == Some(now)
  {
    var s2 := Prepare(s, id, features, prediction, now);
    PreparedPatient(s, id, features, prediction, now);
    if |s2.patients[id].features| >= s.window {
      AssessRecords(s2, o, id, name, now);
      CallKeepsTimestamps(s2, o, id, name, now);
    }
  }

  /** Once recorded, the patient holds the new sample as its last one. */
  lemma {:induction false} PreparedPatient(s: DetectorState, id: string, features: seq<real>, prediction: int, now: int)
    requires WellFormed(s) && 0 <= s.window
    ensures var q := Prepare(s, id, features, prediction, now).patients[id];
      0 < |q.features| && 0 < |q.timestamps| && q.timestamps[|q.timestamps| - 1] == now
  {
    var s1 := Admit(s, id);
    assert Tracked(s1, id);
    ObserveAppends(s1.patients[id], features, prediction, now, s.window);
  }

  /** Past the data gate the timestamps stay as recorded. */
  lemma {:induction false} CallKeepsTimestamps(s: DetectorState, o: Oracles, id: string, name: string, now: int)
    requires WellFormed(s) && id in s.order
    ensures Assess(s, o, id, name, now).0.patients[id].timestamps == s.patients[id].timestamps
  {
    var p := s.patients[id];
    if Rectangular(p.features) {
      var run := RunMethod(p, s.window, name, o);
      if run.Some? {
        var s3 := Store(s, id, run.value.0, run.value.1, now);
        assert s3.patients[id].timestamps == p.timestamps;
      }
    }
  }

  /** A patient never seen has the category `unknown` and no history. */
  lemma {:induction false} UnseenPatient(s: DetectorState, id: string)
    requires WellFormed(s) && id !in s.order
    ensures PatientCategory(s, id) == Unknown && DriftHistory(s, id) == []
  {
  }

  /** After a completed detection, the patient's drift history ends with its
      result stamped with the call's time. */
  lemma {:induction false} HistoryEndsWithResult(s: DetectorState, o: Oracles, features: seq<real>, prediction: int, id: string, name: string, now: int)
    requires WellFormed(s)
    requires Detect(s, o, features, prediction, id, name, now).1.Assessed?
    ensures var (s', out) := Detect(s, o, features, prediction, id, name, now);
      var h := DriftHistory(s', id);
      0 < |h| <= HistoryCap && h[|h| - 1] == HistoryEntry(out.result, now)
  {
    AssessedCallRecords(s, o, features, prediction, id, name, now);
  }

  // ---------------------------------------------------------------------
  // The detector object
  // ---------------------------------------------------------------------

  /** `DriftDetector`: the window, `patient_data` and `detection_history`
      (keyed by `order`, as in `DetectorState`). */
  class DriftDetector {
    var window: int
    var order: seq<string>
    var patients: map<string, Patient>
    var history: map<string, seq<HistoryEntry>>

    function Snapshot(): DetectorState
      reads this
    {
      DetectorState(window, order, patients, history)
    }

    ghost predicate Valid()
      reads this
    {
      WellFormed(Snapshot())
    }

    constructor(windowSize: int)
      ensures Valid() && Snapshot() == InitialDetector(windowSize)
    {
      window := windowSize;
      order := [];
      patients := map[];
      history := map[];
    }

    /** `detect_drift`. */
    method DetectDrift(o: Oracles, features: seq<real>, prediction: int, id: string, name: string, now: int) returns (out: DriftOutcome)
      requires Valid()
      modifies this
      ensures Valid()
      ensures (Snapshot(), out) == Detect(old(Snapshot()), o, features, prediction, id, name, now)
    {
      if id !in order {
        InitializePatient(id);
      }
      UpdatePatientData(id, features, prediction, now);
      var n := |patients[id].features|;
      if n < window {
        return InsufficientData(n);
      }
      out := AssessPatient(o, id, name, now);
    }

    /** `_initialize_patient`. */
    method InitializePatient(id: string)
      requires Valid() && id !in order
      modifies this
      ensures Valid() && Snapshot() == Admit(old(Snapshot()), id)
    {
      order := order + [id];
      patients := patients[id := NewPatient()];
      history := history[id := []];
    }

    /** `_update_patient_data`. */
    method UpdatePatientData(id: string, features: seq<real>, prediction: int, now: int)
      requires Valid() && id in order
      modifies this
      ensures Valid() && Snapshot() == Record(old(Snapshot()), id, features, prediction, now)
    {
      var p := patients[id];
      var f := p.features + [features];
      var pr := p.predictions + [prediction];
      var ts := p.timestamps + [now];
      if |f| > 2 * window {
        f, pr, ts := PyTail(f, window), PyTail(pr, window), PyTail(ts, window);
      }
      var q := p.(features := f, predictions := pr, timestamps := ts);
      assert q == Observe(p, features, prediction, now, window);
      patients := patients[id := q];
    }

    /** Everything past the data gate. */
    method AssessPatient(o: Oracles, id: string, name: string, now: int) returns (out: DriftOutcome)
      requires Valid() && id in order
      modifies this
      ensures Valid()
      ensures (Snapshot(), out) == Assess(old(Snapshot()), o, id, name, now)
    {
      var p := patients[id];
      if !Rectangular(p.features) {
        return DetectionFailed;
      }
      var run := RunDetection(p, window, name, o);
      out := FinishDetection(o.spread, id, now, run);
    }

    /** The cluster centers, `_update_detection_history` and the drift type. */
    method FinishDetection(spread: Spread, id: string, now: int, run: Option<(Detection, bool)>) returns (out: DriftOutcome)
      requires Valid() && id in order && Rectangular(patients[id].features)
      modifies this
      ensures Valid()
      ensures (Snapshot(), out) == Conclude(old(Snapshot()), spread, id, now, run)
    {
      if run.None? {
        return DetectionFailed;
      }
      ghost var start := Snapshot();
      var (result, centers) := run.value;
      patients := patients[id := patients[id].(hasCenters := centers)];
      UpdateDetectionHistory(id, result, now);
      ghost var stored := Store(start, id, result, centers, now);
      assert Snapshot() == stored;
      if result.detected {
        var driftType := DetermineDriftType(spread, id, now);
        out := Assessed(result, driftType);
        assert (Snapshot(), out) == Classify(stored, spread, id, now, result);
      } else {
        out := Assessed(result, NoDrift);
      }
    }

    /** `_update_detection_history`: append, keep the last 100. */
    method UpdateDetectionHistory(id: string, result: Detection, now: int)
      requires id in order && id in history
      modifies this
      ensures Snapshot() == old(Snapshot()).(history := old(history)[id := AppendCapped(old(history)[id], HistoryEntry(result, now))])
    {
      var h := history[id] + [HistoryEntry(result, now)];
      if |h| > HistoryCap {
        h := h[|h| - HistoryCap..];
      }
      history := history[id := h];
    }

    /** `_determine_drift_type`: best match on the recent window, and the
        switch of category when it scores above 0.7. */
    method DetermineDriftType(spread: Spread, id: string, now: int) returns (best: string)
      requires id in patients && Rectangular(patients[id].features)
      modifies this
      ensures var t := Typing(old(patients[id].features), window, spread);
        best == t.0 && Snapshot() == old(Snapshot()).(patients := old(patients)[id := Reclassify(old(patients[id]), t.0, t.1, now)])
    {
      var p := patients[id];
      var score;
      best, score := TypeRecentWindow(p.features, window, spread);
      if best != p.category && score > SwitchThreshold {
        patients := patients[id := p.(category := best, categoryHistory := p.categoryHistory + [CategoryChange(best, now, score)])];
      } else {
        assert patients == patients[id := p];
      }
      assert patients == old(patients)[id := Reclassify(p, best, score, now)];
    }
  }

  // ---------------------------------------------------------------------
  // The loops of the detector
  // ---------------------------------------------------------------------

  /** The method dispatch. */
  method RunDetection(p: Patient, window: int, name: string, o: Oracles) returns (r: Option<(Detection, bool)>)
    requires Rectangular(p.features)
    ensures r == RunMethod(p, window, name, o)
  {
    var rows := p.features;
    if name == Auto {
      var st := StatisticalTest(rows, window, o);
      if st.None? { return None; }
      var dt := DistributionTest(rows, window, o);
      if dt.None? { return None; }
      var ct := ClusterTest(rows, window, p.hasCenters, o);
      if ct.None? { return None; }
      var cu := CustomPatternDetection(rows, window, p.category, o.spread);
      var combined := CombineDetectionResults([st.value, dt.value, ct.value.0, cu]);
      r := Some((combined, ct.value.1));
    } else if name == "distribution" {
      r := KeepCenters(DistributionTest(rows, window, o), p.hasCenters);
    } else if name == "clustering" {
      r := ClusterTest(rows, window, p.hasCenters, o);
    } else if name == "custom" {
      var cu := CustomPatternDetection(rows, window, p.category, o.spread);
      r := Some((cu, p.hasCenters));
    } else {
      r := KeepCenters(StatisticalTest(rows, window, o), p.hasCenters);
    }
  }

  /** `_custom_pattern_detection`, collecting the deviations in a loop. */
  method CustomPatternDetection(rows: Rows, window: int, category: string, spread: Spread) returns (d: Detection)
    requires Rectangular(rows)
    ensures d == CustomTest(rows, window, category, spread)
  {
    if |rows| < CustomMinSamples {
      return Quiet;
    }
    TailRectangular(rows, window);
    var metrics := ExtractPatternMetrics(PyTail(rows, window), spread);
    var ranges := RangesIn(Categories, category);
    var devs: seq<real> := [];
    for i := 0 to |metrics|
      invariant devs == Deviations(metrics[..i], ranges)
    {
      assert metrics[..i + 1][..i] == metrics[..i];
      var m := metrics[i];
      if m.name in ranges {
        devs := devs + [Deviation(m.value, ranges[m.name])];
      }
    }
    assert metrics[..|metrics|] == metrics;
    var avg := if |devs| == 0 then 0.0 else Mean(devs);
    d := CustomVerdict(avg);
  }

  /** `_combine_detection_results`: count votes and add confidences. */
  method CombineDetectionResults(results: seq<Detection>) returns (r: Detection)
    ensures r == Ensemble(results)
  {
    if |results| == 0 {
      return Quiet;
    }
    var votes := 0;
    var total := 0.0;
    var weight := 0;
    for i := 0 to |results|
      invariant votes == Votes(results[..i]) && weight == i
      invariant total == Sum(Confidences(results[..i]))
    {
      assert results[..i + 1][..i] == results[..i];
      assert Confidences(results[..i + 1]) == Confidences(results[..i]) + [results[i].confidence];
      if results[i].detected {
        votes := votes + 1;
      }
      total := total + results[i].confidence;
      weight := weight + 1;
    }
    assert results[..|results|] == results;
    var ratio := votes as real / weight as real;
    var avg := total / weight as real;
    r := Detection(ratio > ConsensusRatio && avg > ConsensusConfidence, avg, Some("ensemble"));
  }

  /** The inner loop of `_determine_drift_type`: in-range and matched counts
      of one category. */
  method ScoreCategory(metrics: seq<Metric>, ranges: map<string, PositiveRange>) returns (score: nat, matches: nat)
    ensures score == InRangeCount(metrics, ranges) && matches == Matches(metrics, ranges)
  {
    score, matches := 0, 0;
    for i := 0 to |metrics|
      invariant score == InRangeCount(metrics[..i], ranges) && matches == Matches(metrics[..i], ranges)
    {
      assert metrics[..i + 1][..i] == metrics[..i];
      var m := metrics[i];
      if m.name in ranges {
        if InRange(m.value, ranges[m.name]) {
          score := score + 1;
        }
        matches := matches + 1;
      }
    }
    assert metrics[..|metrics|] == metrics;
  }

  /** The pattern metrics of the recent window, scored against every
      category. */
  method TypeRecentWindow(features: Rows, window: int, spread: Spread) returns (best: string, score: real)
    requires Rectangular(features)
    ensures (best, score) == Typing(features, window, spread)
  {
    TailRectangular(features, window);
    var metrics := ExtractPatternMetrics(PyTail(features, window), spread);
    best, score := BestCategory(metrics);
  }

  /** The outer loop of `_determine_drift_type`: keep the first category with
      the strictly highest score. */
  method BestCategory(metrics: seq<Metric>) returns (best: string, score: real)
    ensures best == BestMatch(metrics, Categories) && score == BestScore(metrics, Categories)
  {
    best, score := Typical, 0.0;
    for k := 0 to |Categories|
      invariant best == BestMatch(metrics, Categories[..k]) && score == BestScore(metrics, Categories[..k])
    {
      WinnerStep(metrics, Categories, k);
      var c := Categories[k];
      var inRange, matches := ScoreCategory(metrics, c.ranges);
      if matches > 0 {
        var categoryScore := inRange as real / matches as real;
        if categoryScore > score {
          score := categoryScore;
          best := c.name;
        }
      }
    }
    assert Categories[..|Categories|] == Categories;
  }

  /** One step of the outer loop: the winner over one more category. */
  lemma {:induction false} WinnerStep(metrics: seq<Metric>, cats: seq<Category>, k: nat)
    requires k < |cats|
    ensures var c := cats[k];
      var before := BestScore(metrics, cats[..k]);
      var moves := CategoryScore(metrics, c.ranges).Some? && ScoreOrZero(metrics, c) > before;
      BestMatch(metrics, cats[..k + 1]) == (if moves then c.name else BestMatch(metrics, cats[..k])) &&
      BestScore(metrics, cats[..k + 1]) == (if moves then ScoreOrZero(metrics, c) else before)
  {
    assert cats[..k + 1][..k] == cats[..k];
    var w := Winner(metrics, cats[..k]);
    if w.Some? {
      assert cats[..k + 1][w.value] == cats[..k][w.value];
    }
  }
}
