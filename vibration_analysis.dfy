/** The rule-based diagnosis of the vibration analysis service: fault rules
    over the extracted features, a confidence-weighted health score, and
    maintenance recommendations. */
module VibrationAnalysis {
  import opened Common
  import opened AnalysisTypes

  /** The running speed the imbalance rule assumes (1800 RPM). */
  const ExpectedRunningFrequency: real := 30.0

  const Imbalance: string := "Imbalance"
  const BearingDefect: string := "Bearing Defect"
  const ImpulsiveBehavior: string := "Impulsive Behavior"
  const GearMeshIssues: string := "Gear Mesh Issues"
  const HighVibrationLevel: string := "High Vibration Level"

  function Abs(x: real): real { if x < 0.0 then -x else x }

  // ---------------------------------------------------------------------
  // Feature lookup with the defaults of `dict.get`

  function TimeFeaturesOf(a: SignalAnalysis): TimeFeatures {
    a.timeFeatures.GetOr(TimeFeatures(None, None, None))
  }

  function FrequencyFeaturesOf(a: SignalAnalysis): FrequencyFeatures {
    a.frequencyFeatures.GetOr(FrequencyFeatures(None, None, None))
  }

  function DominantFrequency(a: SignalAnalysis): real { FrequencyFeaturesOf(a).dominantFrequency.GetOr(0.0) }
  function DominantMagnitude(a: SignalAnalysis): real { FrequencyFeaturesOf(a).dominantMagnitude.GetOr(0.0) }
  function CrestFactor(a: SignalAnalysis): real { TimeFeaturesOf(a).crestFactor.GetOr(0.0) }
  function Kurtosis(a: SignalAnalysis): real { TimeFeaturesOf(a).kurtosis.GetOr(0.0) }
  function Rms(a: SignalAnalysis): real { TimeFeaturesOf(a).rms.GetOr(0.0) }
  function HarmonicsOf(a: SignalAnalysis): seq<Harmonic> { FrequencyFeaturesOf(a).harmonics.GetOr([]) }

  /** `sum(h.get('magnitude', 0) for h in harmonics)` */
  function SumMagnitudes(hs: seq<Harmonic>): real {
    if hs == [] then 0.0 else hs[0].magnitude.GetOr(0.0) + SumMagnitudes(hs[1..])
  }

  function MeanHarmonicMagnitude(hs: seq<Harmonic>): real
    requires |hs| > 0
  {
    SumMagnitudes(hs) / |hs| as real
  }

  // ---------------------------------------------------------------------
  // The five rules, as conditions on the features

  predicate ImbalanceFires(a: SignalAnalysis) {
    DominantFrequency(a) > 0.0
    && Abs(DominantFrequency(a) - ExpectedRunningFrequency) < 2.0
    && DominantMagnitude(a) > 0.1
  }

  predicate BearingFires(a: SignalAnalysis) { CrestFactor(a) > 4.0 }

  predicate ImpulsiveFires(a: SignalAnalysis) { Kurtosis(a) > 5.0 }

  predicate GearFires(a: SignalAnalysis) {
    |HarmonicsOf(a)| >= 3 && MeanHarmonicMagnitude(HarmonicsOf(a)) > 0.05
  }

  predicate HighVibrationFires(a: SignalAnalysis) { Rms(a) > 0.5 }

  /** Position of a fault type in the fixed rule order. */
  function RuleRank(t: string): int {
    if t == Imbalance then 0
    else if t == BearingDefect then 1
    else if t == ImpulsiveBehavior then 2
    else if t == GearMeshIssues then 3
    else if t == HighVibrationLevel then 4
    else 5
  }

  /** The five rule names are pairwise different. */
  lemma RuleNamesDistinct()
    ensures Imbalance != BearingDefect && Imbalance != ImpulsiveBehavior && Imbalance != GearMeshIssues
    ensures Imbalance != HighVibrationLevel && BearingDefect != ImpulsiveBehavior
    ensures BearingDefect != GearMeshIssues && BearingDefect != HighVibrationLevel
    ensures ImpulsiveBehavior != GearMeshIssues && ImpulsiveBehavior != HighVibrationLevel
    ensures GearMeshIssues != HighVibrationLevel
  {
    assert Imbalance[0] == 'I' && ImpulsiveBehavior[0] == 'I' && BearingDefect[0] == 'B';
    assert GearMeshIssues[0] == 'G' && HighVibrationLevel[0] == 'H';
    assert Imbalance[2] != ImpulsiveBehavior[2];
  }

  predicate HasFaultType(fs: seq<Fault>, t: string) {
    exists f :: f in fs && f.faultType == t
  }

  /** The fault of type `t` in `fs` has exactly this severity and confidence. */
  predicate FaultIs(fs: seq<Fault>, t: string, severity: real, confidence: real) {
    forall i :: 0 <= i < |fs| && fs[i].faultType == t ==>
      fs[i].severity == Some(severity) && fs[i].confidence == Some(confidence)
  }

  /** What each rule contributes: one fault when it fires, nothing otherwise. */
  function ImbalanceFault(a: SignalAnalysis): seq<Fault> {
    if ImbalanceFires(a) then [Fault(Imbalance, Some(MinReal(DominantMagnitude(a) * 100.0, 100.0)), Some(0.7))] else []
  }

  function BearingFault(a: SignalAnalysis): seq<Fault> {
    if BearingFires(a) then [Fault(BearingDefect, Some(MinReal((CrestFactor(a) - 3.0) * 25.0, 100.0)), Some(0.6))] else []
  }

  function ImpulsiveFault(a: SignalAnalysis): seq<Fault> {
    if ImpulsiveFires(a) then [Fault(ImpulsiveBehavior, Some(MinReal((Kurtosis(a) - 3.0) * 10.0, 100.0)), Some(0.5))] else []
  }

  function GearFault(a: SignalAnalysis): seq<Fault> {
    if GearFires(a) then [Fault(GearMeshIssues, Some(MinReal(MeanHarmonicMagnitude(HarmonicsOf(a)) * 200.0, 100.0)), Some(0.6))] else []
  }

  function HighVibrationFault(a: SignalAnalysis): seq<Fault> {
    if HighVibrationFires(a) then [Fault(HighVibrationLevel, Some(MinReal(Rms(a) * 100.0, 100.0)), Some(0.8))] else []
  }

  /** The faults the rules report, in rule order. */
  function RuleFaults(a: SignalAnalysis): seq<Fault> {
    ImbalanceFault(a) + BearingFault(a) + ImpulsiveFault(a) + GearFault(a) + HighVibrationFault(a)
  }

  /** `_detect_faults`: the rules are tried in a fixed order and each one that
      fires appends one fault; `fault_count` is the length of the list. */
  method DetectFaults(a: SignalAnalysis) returns (r: FaultDetection)
    ensures r.detectedFaults == RuleFaults(a)
    ensures r.faultCount == |r.detectedFaults|
    ensures r.analysisMethod == "rule_based"
  {
    var faults: seq<Fault> := [];
    var timeFeatures := TimeFeaturesOf(a);
    var freqFeatures := FrequencyFeaturesOf(a);

    var dominantFreq := freqFeatures.dominantFrequency.GetOr(0.0);
    if dominantFreq > 0.0 {
      if Abs(dominantFreq - ExpectedRunningFrequency) < 2.0 {
        var magnitude := freqFeatures.dominantMagnitude.GetOr(0.0);
        if magnitude > 0.1 {
          faults := faults + [Fault(Imbalance, Some(MinReal(magnitude * 100.0, 100.0)), Some(0.7))];
        }
      }
    }
    assert faults == ImbalanceFault(a);

    var crestFactor := timeFeatures.crestFactor.GetOr(0.0);
    if crestFactor > 4.0 {
      faults := faults + [Fault(BearingDefect, Some(MinReal((crestFactor - 3.0) * 25.0, 100.0)), Some(0.6))];
    }

    var kurtosis := timeFeatures.kurtosis.GetOr(0.0);
    if kurtosis > 5.0 {
      faults := faults + [Fault(ImpulsiveBehavior, Some(MinReal((kurtosis - 3.0) * 10.0, 100.0)), Some(0.5))];
    }
    assert faults == ImbalanceFault(a) + BearingFault(a) + ImpulsiveFault(a);

    var harmonics := freqFeatures.harmonics.GetOr([]);
    if |harmonics| >= 3 {
      var avg := SumMagnitudes(harmonics) / |harmonics| as real;
      if avg > 0.05 {
        faults := faults + [Fault(GearMeshIssues, Some(MinReal(avg * 200.0, 100.0)), Some(0.6))];
      }
    }

    var rms := timeFeatures.rms.GetOr(0.0);
    if rms > 0.5 {
      faults := faults + [Fault(HighVibrationLevel, Some(MinReal(rms * 100.0, 100.0)), Some(0.8))];
    }

    r := FaultDetection(faults, |faults|, "rule_based");
  }

  lemma HasFaultTypeConcat(xs: seq<Fault>, ys: seq<Fault>, t: string)
    ensures HasFaultType(xs + ys, t) <==> HasFaultType(xs, t) || HasFaultType(ys, t)
  {
    if HasFaultType(xs + ys, t) {
      var f :| f in xs + ys && f.faultType == t;
      assert f in xs || f in ys;
    }
    if HasFaultType(xs, t) {
      var f :| f in xs && f.faultType == t;
      assert f in xs + ys;
    }
    if HasFaultType(ys, t) {
      var f :| f in ys && f.faultType == t;
      assert f in xs + ys;
    }
  }

  /** Each fault type is reported exactly when its rule fires. */
  lemma RuleFaultsPresence(a: SignalAnalysis)
    ensures HasFaultType(RuleFaults(a), Imbalance) <==> ImbalanceFires(a)
    ensures HasFaultType(RuleFaults(a), BearingDefect) <==> BearingFires(a)
    ensures HasFaultType(RuleFaults(a), ImpulsiveBehavior) <==> ImpulsiveFires(a)
    ensures HasFaultType(RuleFaults(a), GearMeshIssues) <==> GearFires(a)
    ensures HasFaultType(RuleFaults(a), HighVibrationLevel) <==> HighVibrationFires(a)
  {
    RuleNamesDistinct();
    var p1 := ImbalanceFault(a);
    var p2 := p1 + BearingFault(a);
    var p3 := p2 + ImpulsiveFault(a);
    var p4 := p3 + GearFault(a);
    forall t | t in {Imbalance, BearingDefect, ImpulsiveBehavior, GearMeshIssues, HighVibrationLevel}
      ensures HasFaultType(RuleFaults(a), t) <==>
        HasFaultType(ImbalanceFault(a), t) || HasFaultType(BearingFault(a), t) || HasFaultType(ImpulsiveFault(a), t)
        || HasFaultType(GearFault(a), t) || HasFaultType(HighVibrationFault(a), t)
    {
      HasFaultTypeConcat(p1, BearingFault(a), t);
      HasFaultTypeConcat(p2, ImpulsiveFault(a), t);
      HasFaultTypeConcat(p3, GearFault(a), t);
      HasFaultTypeConcat(p4, HighVibrationFault(a), t);
    }
  }

  /** Faults appear in the fixed rule order, at most one per rule. */
  lemma {:induction false} RuleFaultsOrdered(a: SignalAnalysis)
    ensures |RuleFaults(a)| <= 5
    ensures forall i, j :: 0 <= i < j < |RuleFaults(a)| ==>
      RuleRank(RuleFaults(a)[i].faultType) < RuleRank(RuleFaults(a)[j].faultType) < 5
  {
    RuleNamesDistinct();
    var fs := RuleFaults(a);
    var n1 := |ImbalanceFault(a)|;
    var n2 := n1 + |BearingFault(a)|;
    var n3 := n2 + |ImpulsiveFault(a)|;
    var n4 := n3 + |GearFault(a)|;
    // the rank of an entry is fixed by the block of the concatenation it lies in
    forall k | 0 <= k < |fs|
      ensures RuleRank(fs[k].faultType) == (if k < n1 then 0 else if k < n2 then 1 else if k < n3 then 2 else if k < n4 then 3 else 4)
    {
    }
  }

  /** Every reported fault carries its rule's severity formula and confidence; all
      severities lie in (10, 100] and all confidences are positive. */
  lemma RuleFaultsValues(a: SignalAnalysis)
    ensures FaultIs(RuleFaults(a), Imbalance, MinReal(DominantMagnitude(a) * 100.0, 100.0), 0.7)
    ensures FaultIs(RuleFaults(a), BearingDefect, MinReal((CrestFactor(a) - 3.0) * 25.0, 100.0), 0.6)
    ensures FaultIs(RuleFaults(a), ImpulsiveBehavior, MinReal((Kurtosis(a) - 3.0) * 10.0, 100.0), 0.5)
    ensures FaultIs(RuleFaults(a), HighVibrationLevel, MinReal(Rms(a) * 100.0, 100.0), 0.8)
    ensures GearFires(a) ==>
      FaultIs(RuleFaults(a), GearMeshIssues, MinReal(MeanHarmonicMagnitude(HarmonicsOf(a)) * 200.0, 100.0), 0.6)
    ensures SeveritiesAbove(RuleFaults(a), 10.0)
    ensures forall i :: 0 <= i < |RuleFaults(a)| ==> SeverityOf(RuleFaults(a)[i]) <= 100.0
  {
    var i1 := ImbalanceFault(a);
    var i2 := i1 + BearingFault(a);
    var i3 := i2 + ImpulsiveFault(a);
    var i4 := i3 + GearFault(a);
    RuleValuesHold(a);
    ValuesHoldConcat(i1, BearingFault(a), a);
    ValuesHoldConcat(i2, ImpulsiveFault(a), a);
    ValuesHoldConcat(i3, GearFault(a), a);
    ValuesHoldConcat(i4, HighVibrationFault(a), a);
    assert RuleFaults(a) == i4 + HighVibrationFault(a);
  }

  lemma RuleValuesHold(a: SignalAnalysis)
    ensures ValuesHold(ImbalanceFault(a), a) && ValuesHold(BearingFault(a), a)
    ensures ValuesHold(ImpulsiveFault(a), a) && ValuesHold(GearFault(a), a)
    ensures ValuesHold(HighVibrationFault(a), a)
  {
    RuleNamesDistinct();
    ImbalanceValues(a);
    BearingValues(a);
    ImpulsiveValues(a);
    GearValues(a);
    HighVibrationValues(a);
  }

  lemma ImbalanceValues(a: SignalAnalysis)
    ensures ValuesHold(ImbalanceFault(a), a)
  {
    RuleNamesDistinct();
  }

  lemma BearingValues(a: SignalAnalysis)
    ensures ValuesHold(BearingFault(a), a)
  {
    RuleNamesDistinct();
  }

  lemma ImpulsiveValues(a: SignalAnalysis)
    ensures ValuesHold(ImpulsiveFault(a), a)
  {
    RuleNamesDistinct();
  }

  lemma GearValues(a: SignalAnalysis)
    ensures ValuesHold(GearFault(a), a)
  {
    RuleNamesDistinct();
  }

  lemma HighVibrationValues(a: SignalAnalysis)
    ensures ValuesHold(HighVibrationFault(a), a)
  {
    RuleNamesDistinct();
  }

  /** The per-rule facts of RuleFaultsValues, for one stretch of the list. */
  predicate ValuesHold(fs: seq<Fault>, a: SignalAnalysis) {
    && FaultIs(fs, Imbalance, MinReal(DominantMagnitude(a) * 100.0, 100.0), 0.7)
    && FaultIs(fs, BearingDefect, MinReal((CrestFactor(a) - 3.0) * 25.0, 100.0), 0.6)
    && FaultIs(fs, ImpulsiveBehavior, MinReal((Kurtosis(a) - 3.0) * 10.0, 100.0), 0.5)
    && FaultIs(fs, HighVibrationLevel, MinReal(Rms(a) * 100.0, 100.0), 0.8)
    && (GearFires(a) ==>
         FaultIs(fs, GearMeshIssues, MinReal(MeanHarmonicMagnitude(HarmonicsOf(a)) * 200.0, 100.0), 0.6))
    && (forall i :: 0 <= i < |fs| ==> SeverityOf(fs[i]) > 10.0 && WeightOf(fs[i]) > 0.0)
    && (forall i :: 0 <= i < |fs| ==> SeverityOf(fs[i]) <= 100.0)
  }

  lemma ValuesHoldConcat(xs: seq<Fault>, ys: seq<Fault>, a: SignalAnalysis)
    requires ValuesHold(xs, a) && ValuesHold(ys, a)
    ensures ValuesHold(xs + ys, a)
  {
    var zs := xs + ys;
    forall i | 0 <= i < |zs| ensures zs[i] == if i < |xs| then xs[i] else ys[i - |xs|] {
    }
  }

  // ---------------------------------------------------------------------
  // Health score

  /** `fault.get('severity', 0)` and `fault.get('confidence', 0.5)` */
  function SeverityOf(f: Fault): real { f.severity.GetOr(0.0) }
  function WeightOf(f: Fault): real { f.confidence.GetOr(0.5) }

  /** Sum of severity times confidence over `fs`. */
  function WeightedSeverity(fs: seq<Fault>): real {
    if fs == [] then 0.0 else WeightedSeverity(fs[..|fs| - 1]) + SeverityOf(fs[|fs| - 1]) * WeightOf(fs[|fs| - 1])
  }

  /** Sum of confidences over `fs`. */
  function TotalWeight(fs: seq<Fault>): real {
    if fs == [] then 0.0 else TotalWeight(fs[..|fs| - 1]) + WeightOf(fs[|fs| - 1])
  }

  /** Python's `int(x)`: truncation toward zero. */
  function Truncate(x: real): int {
    if x >= 0.0 then x.Floor else -((-x).Floor)
  }

  /** The health score defined from the confidence-weighted mean severity. */
  function HealthScore(fs: seq<Fault>): int {
    if fs == [] then 95
    else if TotalWeight(fs) > 0.0 then Truncate(MaxReal(0.0, 100.0 - WeightedSeverity(fs) / TotalWeight(fs)))
    else 95
  }

  /** `_calculate_health_score`: accumulates the weighted severity and the total
      weight in one pass. */
  method CalculateHealthScore(fa: FaultDetection) returns (score: int)
    ensures score == HealthScore(fa.detectedFaults)
    ensures score >= 0
  {
    var faults := fa.detectedFaults;
    if faults == [] {
      return 95;
    }
    var totalSeverity := 0.0;
    var totalWeight := 0.0;
    for i := 0 to |faults|
      invariant totalSeverity == WeightedSeverity(faults[..i])
      invariant totalWeight == TotalWeight(faults[..i])
    {
      assert faults[..i + 1][..i] == faults[..i];
      var severity := faults[i].severity.GetOr(0.0);
      var weight := faults[i].confidence.GetOr(0.5);
      totalSeverity := totalSeverity + severity * weight;
      totalWeight := totalWeight + weight;
    }
    assert faults[..|faults|] == faults;
    var healthScore: real;
    if totalWeight > 0.0 {
      var avgSeverity := totalSeverity / totalWeight;
      healthScore := MaxReal(0.0, 100.0 - avgSeverity);
    } else {
      healthScore := 95.0;
    }
    score := Truncate(healthScore);
  }

  predicate SeveritiesAbove(fs: seq<Fault>, m: real) {
    forall i :: 0 <= i < |fs| ==> SeverityOf(fs[i]) > m && WeightOf(fs[i]) > 0.0
  }

  lemma {:induction false} WeightedSeverityAbove(fs: seq<Fault>, m: real)
    requires SeveritiesAbove(fs, m) && fs != []
    ensures TotalWeight(fs) > 0.0 && WeightedSeverity(fs) > m * TotalWeight(fs)
    decreases |fs|
  {
    var p := fs[..|fs| - 1];
    var last := fs[|fs| - 1];
    assert SeverityOf(last) * WeightOf(last) > m * WeightOf(last) by {
      assert SeverityOf(last) > m && WeightOf(last) > 0.0;
    }
    if p != [] {
      assert SeveritiesAbove(p, m) by {
        forall i | 0 <= i < |p| ensures SeverityOf(p[i]) > m && WeightOf(p[i]) > 0.0 {
          assert p[i] == fs[i];
        }
      }
      WeightedSeverityAbove(p, m);
    }
  }

  /** Every non-empty list of faults whose severities all exceed 10 (with positive
      confidence) scores below 90, the threshold of the "low" band. */
  lemma SeverityAboveTenScoresBelow90(fs: seq<Fault>)
    requires SeveritiesAbove(fs, 10.0) && fs != []
    ensures 0 <= HealthScore(fs) < 90
  {
    WeightedSeverityAbove(fs, 10.0);
    QuotientAbove(WeightedSeverity(fs), TotalWeight(fs), 10.0);
  }

  lemma QuotientAbove(a: real, b: real, m: real)
    requires b > 0.0 && a > m * b
    ensures a / b > m
  {
    var q := a / b;
    assert q * b == a;
    if q <= m {
      assert q * b <= m * b;
    }
  }

  lemma {:induction false} WeightedSeverityNonNegative(fs: seq<Fault>)
    requires forall i :: 0 <= i < |fs| ==> SeverityOf(fs[i]) >= 0.0 && WeightOf(fs[i]) >= 0.0
    ensures WeightedSeverity(fs) >= 0.0 && TotalWeight(fs) >= 0.0
    decreases |fs|
  {
    if fs != [] {
      var p := fs[..|fs| - 1];
      forall i | 0 <= i < |p| ensures SeverityOf(p[i]) >= 0.0 && WeightOf(p[i]) >= 0.0 {
        assert p[i] == fs[i];
      }
      WeightedSeverityNonNegative(p);
    }
  }

  /** With non-negative severities and confidences the score stays within 0..100
      (95 when there is nothing to weigh). */
  lemma HealthScoreBounds(fs: seq<Fault>)
    requires forall i :: 0 <= i < |fs| ==> SeverityOf(fs[i]) >= 0.0 && WeightOf(fs[i]) >= 0.0
    ensures 0 <= HealthScore(fs) <= 100
    ensures TotalWeight(fs) <= 0.0 ==> HealthScore(fs) == 95
  {
    WeightedSeverityNonNegative(fs);
    if fs != [] && TotalWeight(fs) > 0.0 {
      var avg := WeightedSeverity(fs) / TotalWeight(fs);
      assert avg >= 0.0;
    }
  }

  // ---------------------------------------------------------------------
  // Recommendations

  datatype Priority = Low | Medium | High

  datatype Recommendation = Recommendation(priority: Priority, action: string, description: string)

  const ContinueOperation := Recommendation(Low, "Continue normal operation",
    "Machine is operating within normal parameters")
  const ScheduleMaintenance := Recommendation(Medium, "Schedule routine maintenance",
    "Minor issues detected, plan maintenance during next scheduled downtime")
  const InvestigateImmediately := Recommendation(High, "Investigate immediately",
    "Significant issues detected, investigate and address promptly")
  const CheckRotorBalance := Recommendation(Medium, "Check rotor balance",
    "Perform balancing procedure or check for loose components")
  const InspectBearings := Recommendation(High, "Inspect bearings",
    "Check bearing condition, lubrication, and consider replacement")
  const InspectGearbox := Recommendation(Medium, "Inspect gearbox",
    "Check gear teeth condition, alignment, and lubrication")

  lemma RecommendationsDistinct()
    ensures ContinueOperation != CheckRotorBalance && ContinueOperation != InspectBearings
    ensures ContinueOperation != InspectGearbox && ScheduleMaintenance != CheckRotorBalance
    ensures ScheduleMaintenance != InspectBearings && ScheduleMaintenance != InspectGearbox
    ensures InvestigateImmediately != CheckRotorBalance && InvestigateImmediately != InspectBearings
    ensures InvestigateImmediately != InspectGearbox && CheckRotorBalance != InspectBearings
    ensures CheckRotorBalance != InspectGearbox && InspectBearings != InspectGearbox
  {
    assert ContinueOperation.action[1] == 'o' && CheckRotorBalance.action[1] == 'h';
    assert ScheduleMaintenance.action[0] == 'S' && InspectBearings.action[0] == 'I';
    assert InvestigateImmediately.action[2] == 'v' && InspectGearbox.action[2] == 's';
    assert InspectBearings.action[8] == 'b' && InspectGearbox.action[8] == 'g';
  }

  /** Position of a fault-specific recommendation in the order they are added. */
  function AdviceRank(r: Recommendation): int {
    if r == CheckRotorBalance then 0
    else if r == InspectBearings then 1
    else if r == InspectGearbox then 2
    else 3
  }

  /** `[f.get('fault_type', '') for f in faults]` */
  function FaultTypes(fs: seq<Fault>): (ts: seq<string>)
    ensures |ts| == |fs| && forall i :: 0 <= i < |fs| ==> ts[i] == fs[i].faultType
  {
    seq(|fs|, i requires 0 <= i < |fs| => fs[i].faultType)
  }

  lemma FaultTypesHas(fs: seq<Fault>, t: string)
    ensures t in FaultTypes(fs) <==> HasFaultType(fs, t)
  {
    var ts := FaultTypes(fs);
    if t in ts {
      var i :| 0 <= i < |ts| && ts[i] == t;
      assert fs[i] in fs && fs[i].faultType == t;
    }
    if HasFaultType(fs, t) {
      var f :| f in fs && f.faultType == t;
      var i :| 0 <= i < |fs| && fs[i] == f;
      assert ts[i] == t;
    }
  }

  /** The health-band item. */
  function BandRecommendation(healthScore: int): Recommendation {
    if healthScore >= 90 then ContinueOperation
    else if healthScore >= 70 then ScheduleMaintenance
    else InvestigateImmediately
  }

  /** The fault-specific items, each present iff that exact fault type was detected. */
  function Advice(fs: seq<Fault>): seq<Recommendation> {
    (if HasFaultType(fs, Imbalance) then [CheckRotorBalance] else [])
    + (if HasFaultType(fs, BearingDefect) then [InspectBearings] else [])
    + (if HasFaultType(fs, GearMeshIssues) then [InspectGearbox] else [])
  }

  function Recommendations(fa: FaultDetection, healthScore: int): seq<Recommendation> {
    [BandRecommendation(healthScore)] + Advice(fa.detectedFaults)
  }

  /** `_generate_recommendations`: one health-band item, then one item per
      recognised fault type, appended in a fixed order. */
  method GenerateRecommendations(fa: FaultDetection, healthScore: int) returns (recs: seq<Recommendation>)
    ensures recs == Recommendations(fa, healthScore)
  {
    recs := [];
    var faults := fa.detectedFaults;
    if healthScore >= 90 {
      recs := recs + [ContinueOperation];
    } else if healthScore >= 70 {
      recs := recs + [ScheduleMaintenance];
    } else {
      recs := recs + [InvestigateImmediately];
    }

    var faultTypes := FaultTypes(faults);
    FaultTypesHas(faults, Imbalance);
    FaultTypesHas(faults, BearingDefect);
    FaultTypesHas(faults, GearMeshIssues);

    if Imbalance in faultTypes {
      recs := recs + [CheckRotorBalance];
    }
    if BearingDefect in faultTypes {
      recs := recs + [InspectBearings];
    }
    if GearMeshIssues in faultTypes {
      recs := recs + [InspectGearbox];
    }
  }

  /** The list holds one to four items: exactly one health-band item first, chosen
      by the 90/70 thresholds, then the balance, bearing and gearbox items in that
      order, each present iff its fault type was detected. */
  lemma RecommendationsShape(fa: FaultDetection, healthScore: int)
    ensures var recs := Recommendations(fa, healthScore);
      && 1 <= |recs| <= 4
      && (healthScore >= 90 ==> recs[0] == ContinueOperation)
      && (70 <= healthScore < 90 ==> recs[0] == ScheduleMaintenance)
      && (healthScore < 70 ==> recs[0] == InvestigateImmediately)
      && (CheckRotorBalance in recs[1..] <==> HasFaultType(fa.detectedFaults, Imbalance))
      && (InspectBearings in recs[1..] <==> HasFaultType(fa.detectedFaults, BearingDefect))
      && (InspectGearbox in recs[1..] <==> HasFaultType(fa.detectedFaults, GearMeshIssues))
      && (forall i, j :: 1 <= i < j < |recs| ==> AdviceRank(recs[i]) < AdviceRank(recs[j]) < 3)
      && (forall i :: 1 <= i < |recs| ==> AdviceRank(recs[i]) < 3)
  {
    RecommendationsDistinct();
    var recs := Recommendations(fa, healthScore);
    assert recs[1..] == Advice(fa.detectedFaults);
  }

  /** The diagnosis steps of the analysis pipeline chained together: a reading
      with no fault scores 95 and gets only "continue normal operation"; a reading
      with any fault scores below 90 and never gets a low-priority first item. */
  method Diagnose(a: SignalAnalysis) returns (fa: FaultDetection, score: int, recs: seq<Recommendation>)
    ensures fa.detectedFaults == RuleFaults(a) && score == HealthScore(fa.detectedFaults)
    ensures |recs| >= 1
    ensures fa.detectedFaults == [] ==> score == 95 && recs == [ContinueOperation]
    ensures fa.detectedFaults != [] ==> 0 <= score < 90 && recs[0].priority != Low
  {
    fa := DetectFaults(a);
    score := CalculateHealthScore(fa);
    if fa.detectedFaults != [] {
      RuleFaultsValues(a);
      SeverityAboveTenScoresBelow90(fa.detectedFaults);
    }
    recs := GenerateRecommendations(fa, score);
  }
}
