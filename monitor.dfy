/**
 * The drift monitor (backend/drift/monitor.py): the recent drifts it
 * reads from a drift detector, the alert rules on their patterns, the
 * performance-degradation rule over the evaluation history, the system
 * health rule, the clean-up of old records, and the alert log with its
 * file capped at 1000 entries.
 *
 * Timestamps of the monitor are ISO strings compared as Python compares
 * strings (`Common.LexLess`); the current time is a parameter. The
 * alerts file is a field holding its contents.
 */
module Monitor {
  import opened Common
  import Detector
  import Evaluation

  /** `alert_thresholds`. */
  const DriftConfidenceThreshold: real := 0.7
  const PerformanceDropThreshold: real := 0.15
  const ConsecutiveDrifts: nat := 3

  /** `alerts.json` keeps the last 1000 alerts. */
  const AlertFileCap: nat := 1000

  /** The drift type reported for a history entry without one. */
  const UnknownType: string := "unknown"

  /** CPU and memory usage below this percentage are healthy. */
  const HealthyUsageLimit: real := 90.0

  datatype MonitorAlert =
    | FrequentDrift(driftType: string, count: nat, patients: set<string>)
    | HighConfidenceDrift(driftType: string, count: nat, averageConfidence: real)
    | PerformanceDegradation(currentAccuracy: real, historicalAccuracy: real, dropPercentage: real)
    | SystemHealth(check: SystemCheck)

  /** An alert as `_trigger_alert` records it. */
  datatype TimedAlert = TimedAlert(alert: MonitorAlert, timestamp: string)

  /** One psutil reading; the other figures of the record are left out. */
  datatype SystemCheck = SystemCheck(timestamp: string, cpuPercent: real, memoryPercent: real)

  // ---------------------------------------------------------------------
  // Recent drifts (`_analyze_recent_predictions`)
  // ---------------------------------------------------------------------

  datatype RecentDrift = RecentDrift(patientId: string, driftType: string, confidence: real, timestamp: int)

  /** The last detection of a patient, when it reported drift. A detector
      history entry has no drift type, so it is always `unknown`. */
  function LatestDrift(s: Detector.DetectorState, id: string): Option<RecentDrift> {
    var h := Detector.DriftHistory(s, id);
    if h == [] || !h[|h| - 1].result.detected then None
    else Some(RecentDrift(id, UnknownType, h[|h| - 1].result.confidence, h[|h| - 1].timestamp))
  }

  function RecentDriftsOf(s: Detector.DetectorState, ids: seq<string>): seq<RecentDrift> {
    if ids == [] then []
    else
      var k := |ids| - 1;
      RecentDriftsOf(s, ids[..k]) + (match LatestDrift(s, ids[k]) case Some(d) => [d] case None => [])
  }

  /** The recent drifts, patient by patient in the detector's order. */
  function RecentDrifts(s: Detector.DetectorState): seq<RecentDrift> {
    RecentDriftsOf(s, s.order)
  }

  /** Every recent drift is of type `unknown`, one at most per patient. */
  lemma {:induction false} RecentDriftsUnknown(s: Detector.DetectorState, ids: seq<string>)
    ensures |RecentDriftsOf(s, ids)| <= |ids|
    ensures forall i :: 0 <= i < |RecentDriftsOf(s, ids)| ==> RecentDriftsOf(s, ids)[i].driftType == UnknownType
  {
    if ids != [] {
      RecentDriftsUnknown(s, ids[..|ids| - 1]);
    }
  }

  /** A recent drift comes from a patient whose last detection reported
      drift. */
  lemma {:induction false} RecentDriftSource(s: Detector.DetectorState, ids: seq<string>, d: RecentDrift)
    requires d in RecentDriftsOf(s, ids)
    ensures exists i :: 0 <= i < |ids| && LatestDrift(s, ids[i]) == Some(d)
  {
    var k := |ids| - 1;
    if d in RecentDriftsOf(s, ids[..k]) {
      RecentDriftSource(s, ids[..k], d);
      var i :| 0 <= i < k && LatestDrift(s, ids[..k][i]) == Some(d);
      assert ids[..k][i] == ids[i];
    } else {
      assert LatestDrift(s, ids[k]) == Some(d);
    }
  }

  /** A patient whose last detection reported drift contributes it. */
  lemma {:induction false} RecentDriftIncluded(s: Detector.DetectorState, ids: seq<string>, i: nat)
    requires i < |ids| && LatestDrift(s, ids[i]).Some?
    ensures LatestDrift(s, ids[i]).value in RecentDriftsOf(s, ids)
  {
    var k := |ids| - 1;
    if i < k {
      RecentDriftIncluded(s, ids[..k], i);
      assert ids[..k][i] == ids[i];
    }
  }

  /** The loop of `_analyze_recent_predictions` over the detector's
      patients. */
  method CollectRecentDrifts(s: Detector.DetectorState) returns (drifts: seq<RecentDrift>)
    ensures drifts == RecentDrifts(s)
  {
    drifts := [];
    for i := 0 to |s.order|
      invariant drifts == RecentDriftsOf(s, s.order[..i])
    {
      assert s.order[..i + 1][..i] == s.order[..i];
      var h := Detector.DriftHistory(s, s.order[i]);
      if h != [] {
        var recent := h[|h| - 1];
        if recent.result.detected {
          drifts := drifts + [RecentDrift(s.order[i], UnknownType, recent.result.confidence, recent.timestamp)];
        }
      }
    }
    assert s.order[..|s.order|] == s.order;
  }

  // ---------------------------------------------------------------------
  // Grouping by drift type
  // ---------------------------------------------------------------------

  type Groups = seq<(string, seq<RecentDrift>)>

  ghost predicate HasKey(g: Groups, t: string) {
    exists i :: 0 <= i < |g| && g[i].0 == t
  }

  predicate DistinctKeys(g: Groups) {
    forall i, j :: 0 <= i < j < |g| ==> g[i].0 != g[j].0
  }

  /** The drifts of one type, in order. */
  function OfType(drifts: seq<RecentDrift>, t: string): seq<RecentDrift> {
    if drifts == [] then []
    else
      var k := |drifts| - 1;
      OfType(drifts[..k], t) + (if drifts[k].driftType == t then [drifts[k]] else [])
  }

  /** `drift_by_type[drift_type].append(drift)`, the key created at the end
      when it is new. */
  function AddDrift(g: Groups, d: RecentDrift): Groups {
    if g == [] then [(d.driftType, [d])]
    else if g[0].0 == d.driftType then [(g[0].0, g[0].1 + [d])] + g[1..]
    else [g[0]] + AddDrift(g[1..], d)
  }

  /** `drift_by_type`. */
  function Group(drifts: seq<RecentDrift>): Groups {
    if drifts == [] then []
    else
      var k := |drifts| - 1;
      AddDrift(Group(drifts[..k]), drifts[k])
  }

  /** Adding a drift keeps the groups when its type has one, and appends
      a new group otherwise. */
  lemma {:induction false} AddDriftLength(g: Groups, d: RecentDrift)
    ensures HasKey(g, d.driftType) ==> |AddDrift(g, d)| == |g|
    ensures !HasKey(g, d.driftType) ==> |AddDrift(g, d)| == |g| + 1 && AddDrift(g, d)[|g|] == (d.driftType, [d])
  {
    if g != [] && g[0].0 != d.driftType {
      AddDriftLength(g[1..], d);
      assert AddDrift(g, d) == [g[0]] + AddDrift(g[1..], d);
      if HasKey(g, d.driftType) {
        var i :| 0 <= i < |g| && g[i].0 == d.driftType;
        assert g[1..][i - 1].0 == d.driftType;
      }
      if HasKey(g[1..], d.driftType) {
        var i :| 0 <= i < |g[1..]| && g[1..][i].0 == d.driftType;
        assert g[i + 1].0 == d.driftType;
      }
    } else if g != [] {
      assert g[0].0 == d.driftType;
    }
  }

  /** With distinct types, adding a drift extends its own type's group and
      leaves every other group as it was. */
  lemma {:induction false} AddDriftAt(g: Groups, d: RecentDrift, i: nat)
    requires DistinctKeys(g) && i < |g|
    ensures i < |AddDrift(g, d)|
    ensures AddDrift(g, d)[i] == (if g[i].0 == d.driftType then (g[i].0, g[i].1 + [d]) else g[i])
  {
    if g[0].0 != d.driftType && i > 0 {
      assert DistinctKeys(g[1..]) by {
        forall a, b | 0 <= a < b < |g[1..]| ensures g[1..][a].0 != g[1..][b].0 {
          assert g[1..][a] == g[a + 1] && g[1..][b] == g[b + 1];
        }
      }
      AddDriftAt(g[1..], d, i - 1);
      assert g[1..][i - 1] == g[i];
    }
  }

  /** The grouping: distinct types, each holding exactly its drifts, and
      every type that occurs has its entry. */
  ghost predicate GroupsOf(g: Groups, drifts: seq<RecentDrift>) {
    DistinctKeys(g) &&
    (forall i :: 0 <= i < |g| ==> g[i].1 == OfType(drifts, g[i].0) && g[i].1 != []) &&
    (forall t :: OfType(drifts, t) != [] ==> HasKey(g, t))
  }

  lemma {:induction false} GroupShape(drifts: seq<RecentDrift>)
    ensures GroupsOf(Group(drifts), drifts)
  {
    if drifts != [] {
      var k := |drifts| - 1;
      GroupShape(drifts[..k]);
      assert drifts == drifts[..k] + [drifts[k]];
      GroupStep(Group(drifts[..k]), drifts[..k], drifts[k]);
    }
  }

  lemma {:induction false} OfTypeSnoc(prev: seq<RecentDrift>, d: RecentDrift, t: string)
    ensures OfType(prev + [d], t) == OfType(prev, t) + (if d.driftType == t then [d] else [])
  {
    assert (prev + [d])[..|prev|] == prev;
  }

  /** One step of the grouping loop keeps the grouping exact. */
  lemma {:induction false} GroupStep(g: Groups, prev: seq<RecentDrift>, d: RecentDrift)
    requires GroupsOf(g, prev)
    ensures GroupsOf(AddDrift(g, d), prev + [d])
  {
    var r := AddDrift(g, d);
    var drifts := prev + [d];
    AddDriftLength(g, d);
    forall i | 0 <= i < |g| ensures r[i] == (if g[i].0 == d.driftType then (g[i].0, g[i].1 + [d]) else g[i]) {
      AddDriftAt(g, d, i);
    }
    forall i, j | 0 <= i < j < |r| ensures r[i].0 != r[j].0 {
      if j == |g| {
        assert !HasKey(g, d.driftType);
      }
    }
    forall t | OfType(drifts, t) != [] ensures HasKey(r, t) {
      OfTypeSnoc(prev, d, t);
      if OfType(prev, t) != [] {
        var i :| 0 <= i < |g| && g[i].0 == t;
        assert r[i].0 == t;
      } else {
        assert !HasKey(g, t);
        assert r[|g|].0 == t;
      }
    }
    forall i | 0 <= i < |r| ensures r[i].1 == OfType(drifts, r[i].0) && r[i].1 != [] {
      OfTypeSnoc(prev, d, r[i].0);
      if i == |g| {
        assert !HasKey(g, d.driftType);
        assert OfType(prev, d.driftType) == [];
      }
    }
  }

  /** The grouping loop of `_analyze_drift_patterns`. */
  method GroupDrifts(drifts: seq<RecentDrift>) returns (g: Groups)
    ensures g == Group(drifts)
  {
    g := [];
    for i := 0 to |drifts|
      invariant g == Group(drifts[..i])
    {
      assert drifts[..i + 1][..i] == drifts[..i];
      g := AddDrift(g, drifts[i]);
    }
    assert drifts[..|drifts|] == drifts;
  }

  /** Every drift of a type, and no other. */
  lemma {:induction false} OfTypeContent(drifts: seq<RecentDrift>, t: string)
    ensures forall x :: x in OfType(drifts, t) <==> x in drifts && x.driftType == t
  {
    if drifts != [] {
      var k := |drifts| - 1;
      OfTypeContent(drifts[..k], t);
      assert drifts == drifts[..k] + [drifts[k]];
    }
  }

  /** When all drifts share one type, that type holds them all and every
      other type none. */
  lemma {:induction false} OfSingleType(drifts: seq<RecentDrift>, t: string, other: string)
    requires forall i :: 0 <= i < |drifts| ==> drifts[i].driftType == t
    ensures OfType(drifts, t) == drifts
    ensures other != t ==> OfType(drifts, other) == []
  {
    if drifts != [] {
      var k := |drifts| - 1;
      OfSingleType(drifts[..k], t, other);
      assert drifts == drifts[..k] + [drifts[k]];
    }
  }

  // ---------------------------------------------------------------------
  // Pattern alerts (`_analyze_drift_patterns`)
  // ---------------------------------------------------------------------

  /** `list(set(d['patient_id'] for d in type_drifts))`, as a set. */
  function Patients(l: seq<RecentDrift>): set<string> {
    set d | d in l :: d.patientId
  }

  /** The drifts above the confidence threshold, in order. */
  function HighConfidence(l: seq<RecentDrift>): seq<RecentDrift> {
    if l == [] then []
    else
      var k := |l| - 1;
      HighConfidence(l[..k]) + (if l[k].confidence > DriftConfidenceThreshold then [l[k]] else [])
  }

  function Confidences(l: seq<RecentDrift>): (c: seq<real>)
    ensures |c| == |l|
  {
    seq(|l|, i requires 0 <= i < |l| => l[i].confidence)
  }

  /** The alerts for one type's drifts. */
  function AlertsFor(t: string, l: seq<RecentDrift>): seq<MonitorAlert> {
    var high := HighConfidence(l);
    (if |l| >= ConsecutiveDrifts then [FrequentDrift(t, |l|, Patients(l))] else []) +
    (if high != [] then [HighConfidenceDrift(t, |high|, Mean(Confidences(high)))] else [])
  }

  /** The alerts of every group, group by group. */
  function PatternAlerts(g: Groups): seq<MonitorAlert> {
    if g == [] then []
    else
      var k := |g| - 1;
      PatternAlerts(g[..k]) + AlertsFor(g[k].0, g[k].1)
  }

  lemma {:induction false} HighConfidenceContent(l: seq<RecentDrift>)
    ensures forall x :: x in HighConfidence(l) <==> x in l && x.confidence > DriftConfidenceThreshold
  {
    if l != [] {
      var k := |l| - 1;
      HighConfidenceContent(l[..k]);
      assert l == l[..k] + [l[k]];
    }
  }

  lemma {:induction false} SumAbove(s: seq<real>, c: real)
    requires |s| > 0
    requires forall i :: 0 <= i < |s| ==> s[i] > c
    ensures Sum(s) > |s| as real * c
  {
    var k := |s| - 1;
    if k > 0 {
      SumAbove(s[..k], c);
    }
  }

  /** A mean of values all above a bound is above it. */
  lemma {:induction false} MeanAbove(s: seq<real>, c: real)
    requires |s| > 0
    requires forall i :: 0 <= i < |s| ==> s[i] > c
    ensures Mean(s) > c
  {
    var n := |s| as real;
    SumAbove(s, c);
    assert Sum(s) / n > (n * c) / n;
  }

  /** The average confidence of a high-confidence alert is above the
      threshold and at most the largest confidence it averages. */
  lemma {:induction false} HighConfidenceAverage(l: seq<RecentDrift>)
    requires HighConfidence(l) != []
    ensures var c := Confidences(HighConfidence(l));
      DriftConfidenceThreshold < Mean(c) <= MaxOf(c)
  {
    var high := HighConfidence(l);
    var c := Confidences(high);
    HighConfidenceContent(l);
    forall i | 0 <= i < |c| ensures c[i] > DriftConfidenceThreshold {
      assert high[i] in high;
    }
    MeanAbove(c, DriftConfidenceThreshold);
    MeanBounds(c, DriftConfidenceThreshold, MaxOf(c));
  }

  lemma {:induction false} PatternAlertSource(g: Groups, a: MonitorAlert)
    requires a in PatternAlerts(g)
    ensures exists i :: 0 <= i < |g| && a in AlertsFor(g[i].0, g[i].1)
  {
    var k := |g| - 1;
    if a in PatternAlerts(g[..k]) {
      PatternAlertSource(g[..k], a);
      var i :| 0 <= i < k && a in AlertsFor(g[..k][i].0, g[..k][i].1);
      assert g[..k][i] == g[i];
    } else {
      assert a in AlertsFor(g[k].0, g[k].1);
    }
  }

  lemma {:induction false} PatternAlertIncluded(g: Groups, i: nat, a: MonitorAlert)
    requires i < |g| && a in AlertsFor(g[i].0, g[i].1)
    ensures a in PatternAlerts(g)
  {
    var k := |g| - 1;
    assert PatternAlerts(g) == PatternAlerts(g[..k]) + AlertsFor(g[k].0, g[k].1);
    if i < k {
      assert g[..k][i] == g[i];
      PatternAlertIncluded(g[..k], i, a);
    }
  }

  /** Every alert raised is a frequent-drift or a high-confidence alert
      for the drifts of its own type. */
  lemma {:induction false} PatternAlertsPerType(drifts: seq<RecentDrift>)
    ensures forall a :: a in PatternAlerts(Group(drifts)) ==>
      (a.FrequentDrift? || a.HighConfidenceDrift?) && a in AlertsFor(a.driftType, OfType(drifts, a.driftType))
  {
    var g := Group(drifts);
    GroupShape(drifts);
    forall a | a in PatternAlerts(g)
      ensures (a.FrequentDrift? || a.HighConfidenceDrift?) && a in AlertsFor(a.driftType, OfType(drifts, a.driftType))
    {
      PatternAlertSource(g, a);
      var i :| 0 <= i < |g| && a in AlertsFor(g[i].0, g[i].1);
      AlertsForType(g[i].0, g[i].1);
    }
  }

  /** The alerts of a group are drift alerts of the group's type. */
  lemma {:induction false} AlertsForType(t: string, l: seq<RecentDrift>)
    ensures forall a :: a in AlertsFor(t, l) ==> (a.FrequentDrift? || a.HighConfidenceDrift?) && a.driftType == t
  {
  }

  /** Each type that occurs raises the alerts of its own drifts. */
  lemma {:induction false} TypeRaisesItsAlerts(drifts: seq<RecentDrift>, t: string)
    ensures forall a :: a in AlertsFor(t, OfType(drifts, t)) ==> a in PatternAlerts(Group(drifts))
  {
    var g := Group(drifts);
    var l := OfType(drifts, t);
    if l != [] {
      GroupShape(drifts);
      var i :| 0 <= i < |g| && g[i].0 == t;
      forall a | a in AlertsFor(t, l) ensures a in PatternAlerts(g) {
        PatternAlertIncluded(g, i, a);
      }
    }
  }

  /** A type's drifts raise a frequent-drift alert exactly when there are
      at least three of them, and a high-confidence alert exactly when one
      of them is above 0.7; each alert carries the count, patients and
      average of exactly those drifts. */
  lemma {:induction false} DriftPatternRules(drifts: seq<RecentDrift>, t: string)
    ensures var l := OfType(drifts, t);
      (exists a :: a in PatternAlerts(Group(drifts)) && a.FrequentDrift? && a.driftType == t) <==> |l| >= ConsecutiveDrifts
    ensures var l := OfType(drifts, t);
      |l| >= ConsecutiveDrifts ==> FrequentDrift(t, |l|, Patients(l)) in PatternAlerts(Group(drifts))
    ensures var high := HighConfidence(OfType(drifts, t));
      (exists a :: a in PatternAlerts(Group(drifts)) && a.HighConfidenceDrift? && a.driftType == t) <==> high != []
    ensures var high := HighConfidence(OfType(drifts, t));
      high != [] ==> HighConfidenceDrift(t, |high|, Mean(Confidences(high))) in PatternAlerts(Group(drifts))
  {
    var l := OfType(drifts, t);
    var high := HighConfidence(l);
    PatternAlertsPerType(drifts);
    TypeRaisesItsAlerts(drifts, t);
    if |l| >= ConsecutiveDrifts {
      assert FrequentDrift(t, |l|, Patients(l)) in AlertsFor(t, l);
    }
    if high != [] {
      assert HighConfidenceDrift(t, |high|, Mean(Confidences(high))) in AlertsFor(t, l);
    }
  }

  /** The drifts read from a detector all have type `unknown`, so a
      frequent-drift alert is raised exactly when at least three patients'
      last detections reported drift. */
  lemma {:induction false} FrequentDriftFromDetector(s: Detector.DetectorState)
    ensures (exists a :: a in PatternAlerts(Group(RecentDrifts(s))) && a.FrequentDrift?) <==> |RecentDrifts(s)| >= ConsecutiveDrifts
  {
    var drifts := RecentDrifts(s);
    RecentDriftsUnknown(s, s.order);
    OfSingleType(drifts, UnknownType, UnknownType);
    DriftPatternRules(drifts, UnknownType);
    forall a | a in PatternAlerts(Group(drifts)) && a.FrequentDrift? ensures |drifts| >= ConsecutiveDrifts {
      PatternAlertsPerType(drifts);
      if a.driftType != UnknownType {
        OfSingleType(drifts, UnknownType, a.driftType);
      }
    }
  }

  /** The alert loop of `_analyze_drift_patterns`. */
  method CollectPatternAlerts(g: Groups) returns (alerts: seq<MonitorAlert>)
    ensures alerts == PatternAlerts(g)
  {
    alerts := [];
    for i := 0 to |g|
      invariant alerts == PatternAlerts(g[..i])
    {
      assert g[..i + 1][..i] == g[..i];
      var (t, l) := g[i];
      if |l| >= ConsecutiveDrifts {
        alerts := alerts + [FrequentDrift(t, |l|, Patients(l))];
      }
      var high := HighConfidence(l);
      if high != [] {
        alerts := alerts + [HighConfidenceDrift(t, |high|, Mean(Confidences(high)))];
      }
    }
    assert g[..|g|] == g;
  }

  // ---------------------------------------------------------------------
  // Performance degradation (`_check_model_performance`)
  // ---------------------------------------------------------------------

  /** The daily summary's average accuracy against the weekly one (or the
      daily one when there is no weekly data): an alert when the drop
      exceeds 0.15. */
  function Degradation(daily: Option<Evaluation.Summary>, weekly: Option<Evaluation.Summary>): Option<MonitorAlert> {
    if daily.None? then None
    else
      var current := daily.value.averageAccuracy;
      var historical := if weekly.Some? then weekly.value.averageAccuracy else current;
      var drop := historical - current;
      if drop > PerformanceDropThreshold then Some(PerformanceDegradation(current, historical, drop * 100.0)) else None
  }

  /** `_check_model_performance` on the daily and weekly summaries. */
  function PerformanceCheck(h: Evaluation.History, now: int): Option<MonitorAlert> {
    Degradation(
      Evaluation.PerformanceSummary(h, "daily", None, now).summary,
      Evaluation.PerformanceSummary(h, "weekly", None, now).summary)
  }

  function AverageAccuracy(b: Evaluation.Bucket): real
    requires Evaluation.Flatten(b) != []
  {
    Mean(Evaluation.Values(Evaluation.Flatten(b), "accuracy"))
  }

  /** An alert is raised exactly when both the daily and the weekly
      buckets hold evaluations and the weekly average accuracy exceeds the
      daily one by more than 0.15; it reports both averages and the drop
      in percent. */
  lemma {:induction false} PerformanceCheckRule(h: Evaluation.History, now: int)
    ensures var r := PerformanceCheck(h, now);
      r.Some? <==> (Evaluation.Flatten(h.daily) != [] && Evaluation.Flatten(h.weekly) != [] &&
        AverageAccuracy(h.weekly) - AverageAccuracy(h.daily) > PerformanceDropThreshold)
    ensures var r := PerformanceCheck(h, now);
      r.Some? ==> r.value == PerformanceDegradation(AverageAccuracy(h.daily), AverageAccuracy(h.weekly),
        (AverageAccuracy(h.weekly) - AverageAccuracy(h.daily)) * 100.0)
  {
    PerformanceCheckSummaries(h, now);
    DegradationRule(Evaluation.SummaryStatistics(h.daily), Evaluation.SummaryStatistics(h.weekly), h.daily, h.weekly);
  }

  lemma {:induction false} PerformanceCheckSummaries(h: Evaluation.History, now: int)
    ensures PerformanceCheck(h, now) == Degradation(Evaluation.SummaryStatistics(h.daily), Evaluation.SummaryStatistics(h.weekly))
  {
    assert Evaluation.PeriodData(h, "daily") == h.daily;
    assert Evaluation.PeriodData(h, "weekly") == h.weekly;
  }

  /** For summaries that exist exactly when their buckets hold evaluations
      and carry those evaluations' average accuracy, the alert fires
      exactly when both exist and the weekly average is more than 0.15
      above the daily one. */
  lemma {:induction false} DegradationRule(daily: Option<Evaluation.Summary>, weekly: Option<Evaluation.Summary>,
                                           dailyData: Evaluation.Bucket, weeklyData: Evaluation.Bucket)
    requires daily.None? <==> Evaluation.Flatten(dailyData) == []
    requires weekly.None? <==> Evaluation.Flatten(weeklyData) == []
    requires daily.Some? ==> daily.value.averageAccuracy == AverageAccuracy(dailyData)
    requires weekly.Some? ==> weekly.value.averageAccuracy == AverageAccuracy(weeklyData)
    ensures var r := Degradation(daily, weekly);
      r.Some? <==> (Evaluation.Flatten(dailyData) != [] && Evaluation.Flatten(weeklyData) != [] &&
        AverageAccuracy(weeklyData) - AverageAccuracy(dailyData) > PerformanceDropThreshold)
    ensures var r := Degradation(daily, weekly);
      r.Some? ==> r.value == PerformanceDegradation(AverageAccuracy(dailyData), AverageAccuracy(weeklyData),
        (AverageAccuracy(weeklyData) - AverageAccuracy(dailyData)) * 100.0)
  {
  }

  // ---------------------------------------------------------------------
  // System health, clean-up and the alerts file
  // ---------------------------------------------------------------------

  /** `'healthy' if cpu_percent < 90 and memory.percent < 90`. */
  predicate Healthy(c: SystemCheck) {
    c.cpuPercent < HealthyUsageLimit && c.memoryPercent < HealthyUsageLimit
  }

  function CheckStamp(c: SystemCheck): string { c.timestamp }

  function AlertStamp(a: TimedAlert): string { a.timestamp }

  /** The records whose timestamp is after the cut-off, in order. */
  function KeepNewer<T>(xs: seq<T>, stamp: T -> string, cutoff: string): seq<T> {
    if xs == [] then []
    else
      var k := |xs| - 1;
      KeepNewer(xs[..k], stamp, cutoff) + (if LexLess(cutoff, stamp(xs[k])) then [xs[k]] else [])
  }

  /** Clean-up keeps exactly the records stamped after the cut-off. */
  lemma {:induction false} KeepNewerContent<T>(xs: seq<T>, stamp: T -> string, cutoff: string)
    ensures |KeepNewer(xs, stamp, cutoff)| <= |xs|
    ensures forall x :: x in KeepNewer(xs, stamp, cutoff) <==> x in xs && LexLess(cutoff, stamp(x))
  {
    if xs != [] {
      var k := |xs| - 1;
      KeepNewerContent(xs[..k], stamp, cutoff);
      assert xs == xs[..k] + [xs[k]];
    }
  }

  /** Cleaning up again with the same or a later cut-off is the same as
      cleaning up once with the later one; in particular clean-up is
      idempotent. */
  lemma {:induction false} KeepNewerTwice<T>(xs: seq<T>, stamp: T -> string, first: string, second: string)
    requires first == second || LexLess(first, second)
    ensures KeepNewer(KeepNewer(xs, stamp, first), stamp, second) == KeepNewer(xs, stamp, second)
  {
    if xs != [] {
      var k := |xs| - 1;
      var x := xs[k];
      KeepNewerTwice(xs[..k], stamp, first, second);
      var once := KeepNewer(xs, stamp, first);
      var prev := KeepNewer(xs[..k], stamp, first);
      if LexLess(first, stamp(x)) {
        assert once == prev + [x];
        assert once[..|once| - 1] == prev;
        assert once[|once| - 1] == x;
      } else {
        assert once == prev;
        if LexLess(second, stamp(x)) && first != second {
          LexLessTransitive(first, second, stamp(x));
        }
      }
    }
  }

  /** `_save_alert`: append, then keep the last 1000. */
  function SaveAlert(file: seq<TimedAlert>, a: TimedAlert): seq<TimedAlert> {
    var alerts := file + [a];
    if |alerts| > AlertFileCap then alerts[|alerts| - AlertFileCap..] else alerts
  }

  /** The last 1000 records of a list, all of it when shorter. */
  function LastRecords(l: seq<TimedAlert>): (r: seq<TimedAlert>)
    ensures |r| <= AlertFileCap
  {
    if |l| > AlertFileCap then l[|l| - AlertFileCap..] else l
  }

  function SaveAlerts(file: seq<TimedAlert>, alerts: seq<TimedAlert>): seq<TimedAlert> {
    if alerts == [] then file
    else
      var k := |alerts| - 1;
      SaveAlert(SaveAlerts(file, alerts[..k]), alerts[k])
  }

  /** After saving at least one alert the file holds the last 1000 of all
      alerts ever saved to it, ending with the newest. */
  lemma {:induction false} SaveAlertsKeepsLast(file: seq<TimedAlert>, alerts: seq<TimedAlert>)
    requires alerts != []
    ensures SaveAlerts(file, alerts) == LastRecords(file + alerts)
    ensures var r := SaveAlerts(file, alerts); 0 < |r| <= AlertFileCap && r[|r| - 1] == alerts[|alerts| - 1]
  {
    var k := |alerts| - 1;
    var a := alerts[k];
    var x := file + alerts[..k];
    assert file + alerts == x + [a];
    if k == 0 {
      assert x == file;
    } else {
      SaveAlertsKeepsLast(file, alerts[..k]);
      LastRecordsStep(x, a);
    }
  }

  /** Saving onto the last records is taking the last records of the
      extended list. */
  lemma {:induction false} LastRecordsStep(x: seq<TimedAlert>, a: TimedAlert)
    ensures SaveAlert(LastRecords(x), a) == LastRecords(x + [a])
  {
    var l := LastRecords(x) + [a];
    if |x| > AlertFileCap {
      assert l[|l| - AlertFileCap..] == (x + [a])[|x + [a]| - AlertFileCap..];
    }
  }

  function Stamped(alerts: seq<MonitorAlert>, now: string): (r: seq<TimedAlert>)
    ensures |r| == |alerts|
  {
    seq(|alerts|, i requires 0 <= i < |alerts| => TimedAlert(alerts[i], now))
  }

  /** `get_recent_alerts` returns the last `limit` alerts for a positive
      limit, ending with the newest, and all of them for a limit of 0. */
  lemma {:induction false} RecentAlertsEndWithNewest(alerts: seq<TimedAlert>, a: TimedAlert, limit: int)
    ensures limit > 0 ==> var r := PyTail(alerts + [a], limit);
      |r| == (if limit < |alerts| + 1 then limit else |alerts| + 1) && r[|r| - 1] == a
    ensures limit == 0 ==> PyTail(alerts + [a], limit) == alerts + [a]
  {
  }

  // ---------------------------------------------------------------------
  // The monitor object
  // ---------------------------------------------------------------------

  /** `DriftMonitor`: the `performance_alerts` and `system_checks` lists of
      `monitoring_history`, and the contents of `alerts.json`. */
  class DriftMonitor {
    var performanceAlerts: seq<TimedAlert>
    var systemChecks: seq<SystemCheck>
    var alertFile: seq<TimedAlert>

    /** `__init__`, with the alerts file as found on disk. */
    constructor(savedAlerts: seq<TimedAlert>)
      ensures performanceAlerts == [] && systemChecks == [] && alertFile == savedAlerts
    {
      performanceAlerts := [];
      systemChecks := [];
      alertFile := savedAlerts;
    }

    /** `_trigger_alert`: the stamped alert joins the history and the file. */
    method TriggerAlert(a: MonitorAlert, now: string)
      modifies this
      ensures performanceAlerts == old(performanceAlerts) + [TimedAlert(a, now)]
      ensures alertFile == SaveAlert(old(alertFile), TimedAlert(a, now))
      ensures systemChecks == old(systemChecks)
    {
      var t := TimedAlert(a, now);
      performanceAlerts := performanceAlerts + [t];
      var alerts := alertFile + [t];
      if |alerts| > AlertFileCap {
        alerts := alerts[|alerts| - AlertFileCap..];
      }
      alertFile := alerts;
    }

    /** The `for alert in alerts: self._trigger_alert(alert)` loop. */
    method TriggerAll(alerts: seq<MonitorAlert>, now: string)
      modifies this
      ensures performanceAlerts == old(performanceAlerts) + Stamped(alerts, now)
      ensures alertFile == SaveAlerts(old(alertFile), Stamped(alerts, now))
      ensures systemChecks == old(systemChecks)
    {
      for i := 0 to |alerts|
        invariant performanceAlerts == old(performanceAlerts) + Stamped(alerts[..i], now)
        invariant alertFile == SaveAlerts(old(alertFile), Stamped(alerts[..i], now))
        invariant systemChecks == old(systemChecks)
      {
        assert Stamped(alerts[..i + 1], now) == Stamped(alerts[..i], now) + [TimedAlert(alerts[i], now)];
        assert Stamped(alerts[..i + 1], now)[..i] == Stamped(alerts[..i], now);
        TriggerAlert(alerts[i], now);
      }
      assert alerts[..|alerts|] == alerts;
    }

    /** `_analyze_drift_patterns`. */
    method AnalyzeDriftPatterns(drifts: seq<RecentDrift>, now: string)
      modifies this
      ensures performanceAlerts == old(performanceAlerts) + Stamped(PatternAlerts(Group(drifts)), now)
      ensures alertFile == SaveAlerts(old(alertFile), Stamped(PatternAlerts(Group(drifts)), now))
      ensures systemChecks == old(systemChecks)
    {
      var groups := GroupDrifts(drifts);
      var alerts := CollectPatternAlerts(groups);
      TriggerAll(alerts, now);
    }

    /** `_analyze_recent_predictions` over a detector's state. */
    method AnalyzeRecentPredictions(s: Detector.DetectorState, now: string)
      modifies this
      ensures performanceAlerts == old(performanceAlerts) + Stamped(PatternAlerts(Group(RecentDrifts(s))), now)
      ensures alertFile == SaveAlerts(old(alertFile), Stamped(PatternAlerts(Group(RecentDrifts(s))), now))
      ensures systemChecks == old(systemChecks)
    {
      var drifts := CollectRecentDrifts(s);
      if drifts != [] {
        AnalyzeDriftPatterns(drifts, now);
      } else {
        assert Stamped(PatternAlerts(Group(drifts)), now) == [];
      }
    }

    /** `_check_model_performance`. */
    method CheckModelPerformance(h: Evaluation.History, time: int, now: string)
      modifies this
      ensures PerformanceCheck(h, time).None? ==> performanceAlerts == old(performanceAlerts) && alertFile == old(alertFile)
      ensures PerformanceCheck(h, time).Some? ==>
        performanceAlerts == old(performanceAlerts) + [TimedAlert(PerformanceCheck(h, time).value, now)] &&
        alertFile == SaveAlert(old(alertFile), TimedAlert(PerformanceCheck(h, time).value, now))
      ensures systemChecks == old(systemChecks)
    {
      var alert := PerformanceCheck(h, time);
      if alert.Some? {
        TriggerAlert(alert.value, now);
      }
    }

    /** `_check_system_health` with the psutil readings as parameters. */
    method CheckSystemHealth(cpuPercent: real, memoryPercent: real, now: string)
      modifies this
      ensures systemChecks == old(systemChecks) + [SystemCheck(now, cpuPercent, memoryPercent)]
      ensures Healthy(SystemCheck(now, cpuPercent, memoryPercent)) ==> performanceAlerts == old(performanceAlerts) && alertFile == old(alertFile)
      ensures !Healthy(SystemCheck(now, cpuPercent, memoryPercent)) ==>
        performanceAlerts == old(performanceAlerts) + [TimedAlert(SystemHealth(SystemCheck(now, cpuPercent, memoryPercent)), now)] &&
        alertFile == SaveAlert(old(alertFile), TimedAlert(SystemHealth(SystemCheck(now, cpuPercent, memoryPercent)), now))
    {
      var check := SystemCheck(now, cpuPercent, memoryPercent);
      systemChecks := systemChecks + [check];
      if !Healthy(check) {
        TriggerAlert(SystemHealth(check), now);
      }
    }

    /** `_cleanup_old_data`: system checks and saved alerts stamped at or
        before the cut-off are dropped. */
    method CleanupOldData(cutoff: string)
      modifies this
      ensures systemChecks == KeepNewer(old(systemChecks), CheckStamp, cutoff)
      ensures alertFile == KeepNewer(old(alertFile), AlertStamp, cutoff)
      ensures performanceAlerts == old(performanceAlerts)
    {
      systemChecks := KeepNewer(systemChecks, CheckStamp, cutoff);
      alertFile := KeepNewer(alertFile, AlertStamp, cutoff);
    }

    /** `get_recent_alerts`. */
    function RecentAlerts(limit: int): seq<TimedAlert>
      reads this
    {
      PyTail(performanceAlerts, limit)
    }
  }
}
