/** The baseline-comparison rule engine: three checks that compare current
    features with a machine's baseline, a health score that subtracts weighted
    severities from 100, and the evaluation that collects triggered findings. */
module RuleEngine {
  import opened Common
  import opened AnalysisTypes

  /** A feature dictionary (`Dict[str, float]`); a missing baseline (`None`)
      is modelled by the empty map, as `baseline or {}` makes it. */
  type Features = map<string, real>

  /** `d.get(k, default)` */
  function Get(d: Features, k: string, default: real): (r: real)
    ensures k in d ==> r == d[k]
    ensures k !in d ==> r == default
  {
    if k in d then d[k] else default
  }

  /** The `(triggered, severity)` pair every check returns. */
  datatype Check = Check(triggered: bool, severity: real)

  /** The small constant added to the bearing baseline before dividing. */
  const Epsilon: real := 0.000001

  /** `check_imbalance`: the 1x peak more than 1.5 times its baseline; no baseline, no finding. */
  function CheckImbalance(baseline: Features, features: Features): (c: Check)
    ensures Get(baseline, "fft_peak_1x", 0.0) <= 0.0 ==> c == Check(false, 0.0)
    ensures var base := Get(baseline, "fft_peak_1x", 0.0);
      var cur := Get(features, "fft_peak_1x", 0.0);
      base > 0.0 ==> (c.triggered <==> cur > 1.5 * base)
    ensures 0.0 <= c.severity <= 100.0
    ensures c.triggered ==> c.severity > 50.0
    ensures !c.triggered ==> c.severity == 0.0
  {
    RatioCheck(Get(baseline, "fft_peak_1x", 0.0), Get(features, "fft_peak_1x", 0.0), 1.5)
  }

  /** `check_misalignment`: the crest factor more than 1.4 times its baseline. */
  function CheckMisalignment(baseline: Features, features: Features): (c: Check)
    ensures Get(baseline, "crest_factor", 0.0) <= 0.0 ==> c == Check(false, 0.0)
    ensures var base := Get(baseline, "crest_factor", 0.0);
      var cur := Get(features, "crest_factor", 0.0);
      base > 0.0 ==> (c.triggered <==> cur > 1.4 * base)
    ensures 0.0 <= c.severity <= 100.0
    ensures c.triggered ==> c.severity > 40.0
    ensures !c.triggered ==> c.severity == 0.0
  {
    RatioCheck(Get(baseline, "crest_factor", 0.0), Get(features, "crest_factor", 0.0), 1.4)
  }

  /** The shape shared by the imbalance and misalignment checks. */
  function RatioCheck(base: real, cur: real, threshold: real): (c: Check)
    requires 1.0 < threshold < 2.0
    ensures base <= 0.0 ==> c == Check(false, 0.0)
    ensures base > 0.0 ==> (c.triggered <==> cur > threshold * base)
    ensures base > 0.0 && c.triggered ==> c.severity == Clamp100((cur / base - 1.0) * 100.0)
    ensures c.triggered ==> c.severity > (threshold - 1.0) * 100.0
    ensures 0.0 <= c.severity <= 100.0
    ensures !c.triggered ==> c.severity == 0.0
  {
    if base <= 0.0 then Check(false, 0.0)
    else
      var ratio := cur / base;
      RatioAbove(cur, base, threshold);
      var triggered := ratio > threshold;
      Check(triggered, if triggered then Clamp100((ratio - 1.0) * 100.0) else 0.0)
  }

  lemma RatioAbove(cur: real, base: real, threshold: real)
    requires base > 0.0
    ensures cur / base > threshold <==> cur > threshold * base
  {
    assert cur == (cur / base) * base;
    if cur / base > threshold {
      assert (cur / base) * base > threshold * base;
    } else {
      assert (cur / base) * base <= threshold * base;
    }
  }

  /** `check_bearing_faults`: kurtosis more than 1.3 times its baseline, both
      defaulting to 3.0. The severity divides by `base + 1e-6`, so a triggered
      check with that sum at zero raises `ZeroDivisionError`. */
  function CheckBearingFaults(baseline: Features, features: Features): (r: Result<Check, string>)
    ensures var base := Get(baseline, "kurtosis", 3.0);
      var cur := Get(features, "kurtosis", 3.0);
      && (r.Err? <==> cur > base * 1.3 && base + Epsilon == 0.0)
      && (r.Ok? ==> (r.value.triggered <==> cur > base * 1.3))
      && (r.Ok? && r.value.triggered ==> r.value.severity == Clamp100((cur / (base + Epsilon) - 1.0) * 100.0))
    ensures r.Ok? ==> 0.0 <= r.value.severity <= 100.0
    ensures r.Ok? && !r.value.triggered ==> r.value.severity == 0.0
    ensures r.Err? ==> r.error == "float division by zero"
  {
    var base := Get(baseline, "kurtosis", 3.0);
    var cur := Get(features, "kurtosis", 3.0);
    var triggered := cur > base * 1.3;
    if !triggered then Ok(Check(false, 0.0))
    else if base + Epsilon == 0.0 then Err("float division by zero")
    else Ok(Check(true, Clamp100((cur / (base + Epsilon) - 1.0) * 100.0)))
  }

  // ---------------------------------------------------------------------
  // Health score

  /** Python's `round` on a float: to the nearest integer, ties to the even one. */
  function RoundHalfEven(x: real): (n: int)
    ensures x - 0.5 <= n as real <= x + 0.5
    ensures x - x.Floor as real != 0.5 ==> x - 0.5 < n as real < x + 0.5
    ensures x - x.Floor as real == 0.5 ==> n % 2 == 0
  {
    var f := x.Floor;
    var frac := x - f as real;
    if frac < 0.5 then f
    else if frac > 0.5 then f + 1
    else if f % 2 == 0 then f else f + 1
  }

  /** Rounding never reverses the order of two values. */
  lemma RoundHalfEvenMonotone(x: real, y: real)
    requires x <= y
    ensures RoundHalfEven(x) <= RoundHalfEven(y)
  {
    var fx, fy := x.Floor, y.Floor;
    if fx < fy {
      assert RoundHalfEven(x) <= fx + 1 <= fy <= RoundHalfEven(y);
    } else {
      assert fx == fy;
    }
  }

  /** `d.get("severity", 0.0)` */
  function SeverityOf(d: Fault): real { d.severity.GetOr(0.0) }

  /** The sum of the severities of `ds`. */
  function TotalSeverity(ds: seq<Fault>): real {
    if ds == [] then 0.0 else TotalSeverity(ds[..|ds| - 1]) + SeverityOf(ds[|ds| - 1])
  }

  function ClampScore(n: int): (r: int)
    ensures 0 <= r <= 100
    ensures 0 <= n <= 100 ==> r == n
  {
    if n < 0 then 0 else if n > 100 then 100 else n
  }

  /** The score `calculate_health_score` returns: 100 minus 0.3 per unit of
      severity, rounded half to even and clamped to 0..100. */
  function HealthScore(ds: seq<Fault>): int {
    ClampScore(RoundHalfEven(100.0 - 0.3 * TotalSeverity(ds)))
  }

  /** `calculate_health_score`: subtracts `0.3 * severity` per detection. */
  method CalculateHealthScore(detections: seq<Fault>) returns (score: int)
    ensures score == HealthScore(detections)
    ensures 0 <= score <= 100
  {
    var s := 100.0;
    for i := 0 to |detections|
      invariant s == 100.0 - 0.3 * TotalSeverity(detections[..i])
    {
      assert detections[..i + 1][..i] == detections[..i];
      s := s - 0.3 * SeverityOf(detections[i]);
    }
    assert detections[..|detections|] == detections;
    score := ClampScore(RoundHalfEven(s));
  }

  /** The score lies in 0..100 and is 100 when nothing was detected. */
  lemma HealthScoreBounds(ds: seq<Fault>)
    ensures 0 <= HealthScore(ds) <= 100
    ensures ds == [] ==> HealthScore(ds) == 100
  {
  }

  /** Adding a detection with a non-negative severity never raises the score. */
  lemma HealthScoreNonIncreasing(ds: seq<Fault>, d: Fault)
    requires SeverityOf(d) >= 0.0
    ensures HealthScore(ds + [d]) <= HealthScore(ds)
  {
    assert (ds + [d])[..|ds + [d]| - 1] == ds;
    assert TotalSeverity(ds + [d]) == TotalSeverity(ds) + SeverityOf(d);
    RoundHalfEvenMonotone(100.0 - 0.3 * TotalSeverity(ds + [d]), 100.0 - 0.3 * TotalSeverity(ds));
  }

  // ---------------------------------------------------------------------
  // Evaluation

  const ImbalanceFinding: string := "Imbalance"
  const MisalignmentFinding: string := "Misalignment"
  const BearingFinding: string := "Bearing Fault"

  function FindingIf(c: Check, faultType: string, confidence: real): seq<Fault> {
    if c.triggered then [Fault(faultType, Some(c.severity), Some(confidence))] else []
  }

  /** The findings list for the three check outcomes, in check order. */
  function FindingList(imbalance: Check, misalignment: Check, bearing: Check): seq<Fault> {
    FindingIf(imbalance, ImbalanceFinding, 0.7)
    + FindingIf(misalignment, MisalignmentFinding, 0.6)
    + FindingIf(bearing, BearingFinding, 0.55)
  }

  /** The findings `evaluate` returns, or the error the bearing check raises. */
  function Findings(baseline: Features, features: Features): Result<seq<Fault>, string> {
    match CheckBearingFaults(baseline, features)
    case Err(e) => Err(e)
    case Ok(bearing) =>
      Ok(FindingList(CheckImbalance(baseline, features), CheckMisalignment(baseline, features), bearing))
  }

  /** `evaluate`: runs the three checks in order and appends one finding per triggered check. */
  method Evaluate(baseline: Features, features: Features) returns (r: Result<seq<Fault>, string>)
    ensures r == Findings(baseline, features)
  {
    var findings: seq<Fault> := [];

    var imbalance := CheckImbalance(baseline, features);
    if imbalance.triggered {
      findings := findings + [Fault(ImbalanceFinding, Some(imbalance.severity), Some(0.7))];
    }

    var misalignment := CheckMisalignment(baseline, features);
    if misalignment.triggered {
      findings := findings + [Fault(MisalignmentFinding, Some(misalignment.severity), Some(0.6))];
    }
    assert findings == FindingIf(imbalance, ImbalanceFinding, 0.7) + FindingIf(misalignment, MisalignmentFinding, 0.6);

    var bearing := CheckBearingFaults(baseline, features);
    if bearing.Err? {
      return Err(bearing.error);
    }
    var c := bearing.value;
    if c.triggered {
      findings := findings + [Fault(BearingFinding, Some(c.severity), Some(0.55))];
    }
    assert findings == FindingList(imbalance, misalignment, c);
    r := Ok(findings);
  }

  /** Position of a finding in the fixed check order. */
  function FindingRank(t: string): int {
    if t == ImbalanceFinding then 0
    else if t == MisalignmentFinding then 1
    else if t == BearingFinding then 2
    else 3
  }

  predicate HasFinding(fs: seq<Fault>, t: string) {
    exists i :: 0 <= i < |fs| && fs[i].faultType == t
  }

  /** The list for any three outcomes: at most one finding per triggered check,
      in check order, with the check's severity and the fixed confidence. */
  lemma FindingListShape(imbalance: Check, misalignment: Check, bearing: Check)
    ensures var fs := FindingList(imbalance, misalignment, bearing);
      && |fs| <= 3
      && (forall i, j :: 0 <= i < j < |fs| ==> FindingRank(fs[i].faultType) < FindingRank(fs[j].faultType))
      && (forall i :: 0 <= i < |fs| && fs[i].faultType == ImbalanceFinding ==>
            fs[i].severity == Some(imbalance.severity) && fs[i].confidence == Some(0.7))
      && (forall i :: 0 <= i < |fs| && fs[i].faultType == MisalignmentFinding ==>
            fs[i].severity == Some(misalignment.severity) && fs[i].confidence == Some(0.6))
      && (forall i :: 0 <= i < |fs| && fs[i].faultType == BearingFinding ==>
            fs[i].severity == Some(bearing.severity) && fs[i].confidence == Some(0.55))
      && (HasFinding(fs, ImbalanceFinding) <==> imbalance.triggered)
      && (HasFinding(fs, MisalignmentFinding) <==> misalignment.triggered)
      && (HasFinding(fs, BearingFinding) <==> bearing.triggered)
  {
    assert ImbalanceFinding[0] == 'I' && MisalignmentFinding[0] == 'M' && BearingFinding[0] == 'B';
    var fs := FindingList(imbalance, misalignment, bearing);
    var a := FindingIf(imbalance, ImbalanceFinding, 0.7);
    var b := FindingIf(misalignment, MisalignmentFinding, 0.6);
    forall k | 0 <= k < |fs|
      ensures fs[k] == (if k < |a| then a[k] else if k < |a| + |b| then b[k - |a|] else FindingIf(bearing, BearingFinding, 0.55)[k - |a| - |b|])
    {
    }
    if imbalance.triggered {
      assert fs[0].faultType == ImbalanceFinding;
    }
    if misalignment.triggered {
      assert fs[|a|].faultType == MisalignmentFinding;
    }
    if bearing.triggered {
      assert fs[|fs| - 1].faultType == BearingFinding;
    }
  }

  /** `evaluate` reports exactly the triggered checks, in the order imbalance,
      misalignment, bearing, at most three findings, each with a severity in
      0..100 and confidence 0.7, 0.6 or 0.55; it fails only when the bearing
      check divides by zero. */
  lemma FindingsShape(baseline: Features, features: Features)
    ensures Findings(baseline, features).Err? <==> CheckBearingFaults(baseline, features).Err?
    ensures Findings(baseline, features).Ok? ==>
      var fs := Findings(baseline, features).value;
      && |fs| <= 3
      && (forall i, j :: 0 <= i < j < |fs| ==> FindingRank(fs[i].faultType) < FindingRank(fs[j].faultType))
      && (forall i :: 0 <= i < |fs| ==> fs[i].severity.Some? && 0.0 <= fs[i].severity.value <= 100.0)
      && (forall i :: 0 <= i < |fs| && fs[i].faultType == ImbalanceFinding ==>
            fs[i].severity == Some(CheckImbalance(baseline, features).severity) && fs[i].confidence == Some(0.7))
      && (forall i :: 0 <= i < |fs| && fs[i].faultType == MisalignmentFinding ==>
            fs[i].severity == Some(CheckMisalignment(baseline, features).severity) && fs[i].confidence == Some(0.6))
      && (forall i :: 0 <= i < |fs| && fs[i].faultType == BearingFinding ==>
            fs[i].severity == Some(CheckBearingFaults(baseline, features).value.severity) && fs[i].confidence == Some(0.55))
      && (HasFinding(fs, ImbalanceFinding) <==> CheckImbalance(baseline, features).triggered)
      && (HasFinding(fs, MisalignmentFinding) <==> CheckMisalignment(baseline, features).triggered)
      && (HasFinding(fs, BearingFinding) <==> CheckBearingFaults(baseline, features).value.triggered)
  {
    var bearing := CheckBearingFaults(baseline, features);
    if bearing.Ok? {
      var imbalance := CheckImbalance(baseline, features);
      var misalignment := CheckMisalignment(baseline, features);
      FindingListShape(imbalance, misalignment, bearing.value);
      var fs := FindingList(imbalance, misalignment, bearing.value);
      forall i | 0 <= i < |fs| ensures fs[i].severity.Some? && 0.0 <= fs[i].severity.value <= 100.0 {
        assert FindingRank(fs[i].faultType) < 3 by {
          if i > 0 { assert FindingRank(fs[0].faultType) < FindingRank(fs[i].faultType); }
          if i < |fs| - 1 { assert FindingRank(fs[i].faultType) < FindingRank(fs[|fs| - 1].faultType); }
        }
      }
    }
  }
}
