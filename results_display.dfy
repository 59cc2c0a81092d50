/** The series the analysis results panel charts, and the rule that marks a
    spectrum point as a fault frequency. The backend's plot arrays are used
    when present; otherwise a synthetic series of fixed shape is drawn, whose
    random amplitudes are represented by the tag `Synthesized`. */
module ResultsDisplay {
  import opened Common
  import opened AnalysisTypes

  /** A chart value: read from the backend's array (undefined past its end),
      or drawn from a random formula. */
  datatype Amplitude = Measured(value: real) | Undefined | Synthesized

  datatype TimePoint = TimePoint(time: real, amplitude: Amplitude)

  datatype FrequencyPoint = FrequencyPoint(frequency: real, magnitude: Amplitude, isFaultFreq: bool)

  /** `arr[index]` */
  function At(s: seq<real>, i: nat): (a: Amplitude)
    ensures i < |s| ==> a == Measured(s[i])
    ensures i >= |s| ==> a == Undefined
  {
    if i < |s| then Measured(s[i]) else Undefined
  }

  function Abs(x: real): (r: real)
    ensures r >= 0.0 && (r == x || r == -x)
  {
    if x < 0.0 then -x else x
  }

  /** `x || d` on an integer that may be undefined. */
  function IntOr(x: Option<int>, d: int): (r: int)
    ensures x.Some? && x.value != 0 ==> r == x.value
    ensures (x.None? || x.value == 0) ==> r == d
  {
    if x.Some? && x.value != 0 then x.value else d
  }

  /** `results.some(r => r.status === "error")` */
  predicate HasErrors(results: seq<AnalysisResult>): (b: bool)
    ensures b <==> exists i :: 0 <= i < |results| && results[i].status == "error"
  {
    exists r :: r in results && r.status == "error"
  }

  // ---------------------------------------------------------------------------
  // Fault frequencies
  // ---------------------------------------------------------------------------

  /** `fault_detection?.detected_faults || []` */
  function FaultsOf(r: AnalysisResult): seq<Fault> {
    if r.faultDetection.Some? then r.faultDetection.value.detectedFaults else []
  }

  function FrequencyFeaturesOf(r: AnalysisResult): Option<FrequencyFeatures> {
    if r.signalAnalysis.Some? then r.signalAnalysis.value.frequencyFeatures else None
  }

  /** `dominant_frequency || 0` */
  function DominantOf(r: AnalysisResult): real {
    var ff := FrequencyFeaturesOf(r);
    OrDefault(if ff.Some? then ff.value.dominantFrequency else None, 0.0)
  }

  /** `harmonics || []` */
  function HarmonicsOf(r: AnalysisResult): seq<Harmonic> {
    var ff := FrequencyFeaturesOf(r);
    if ff.Some? && ff.value.harmonics.Some? then ff.value.harmonics.value else []
  }

  /** Some detected fault's type contains `sub`. */
  predicate AnyFaultIncludes(faults: seq<Fault>, sub: string) {
    exists f :: f in faults && Includes(f.faultType, sub)
  }

  /** Some harmonic lies within 2 Hz of `frequency`. */
  predicate NearHarmonic(hs: seq<Harmonic>, frequency: real) {
    exists h :: h in hs && Abs(frequency - h.frequency) < 2.0
  }

  /** `isFaultFrequency`, as a specification: near the dominant frequency the
      imbalance faults decide; otherwise near a harmonic the gear faults decide. */
  predicate IsFaultFrequency(frequency: real, r: AnalysisResult) {
    var dominant := DominantOf(r);
    if dominant > 0.0 && Abs(frequency - dominant) < 2.0 then AnyFaultIncludes(FaultsOf(r), "Imbalance")
    else if NearHarmonic(HarmonicsOf(r), frequency) then AnyFaultIncludes(FaultsOf(r), "Gear")
    else false
  }

  /** `isFaultFrequency`: the loop over the harmonics returns at the first one within 2 Hz. */
  method CheckFaultFrequency(frequency: real, r: AnalysisResult) returns (b: bool)
    ensures b == IsFaultFrequency(frequency, r)
  {
    var faults := FaultsOf(r);
    var dominant := DominantOf(r);
    var harmonics := HarmonicsOf(r);
    if dominant > 0.0 && Abs(frequency - dominant) < 2.0 {
      return AnyFaultIncludes(faults, "Imbalance");
    }
    for i := 0 to |harmonics|
      invariant !NearHarmonic(harmonics[..i], frequency)
    {
      assert harmonics[..i + 1] == harmonics[..i] + [harmonics[i]];
      if Abs(frequency - harmonics[i].frequency) < 2.0 {
        assert harmonics[i] in harmonics;
        return AnyFaultIncludes(faults, "Gear");
      }
    }
    assert harmonics[..|harmonics|] == harmonics;
    b := false;
  }

  /** Without detected faults no frequency is a fault frequency. */
  lemma NoFaultsNoFaultFrequency(frequency: real, r: AnalysisResult)
    requires FaultsOf(r) == []
    ensures !IsFaultFrequency(frequency, r)
  {
  }

  /** Near a positive dominant frequency the harmonics are not consulted: the
      answer is the same whatever harmonics the result lists. */
  lemma {:induction false} DominantDecides(frequency: real, r: AnalysisResult, hs: seq<Harmonic>)
    requires DominantOf(r) > 0.0 && Abs(frequency - DominantOf(r)) < 2.0
    requires r.signalAnalysis.Some? && r.signalAnalysis.value.frequencyFeatures.Some?
    ensures var ff := r.signalAnalysis.value.frequencyFeatures.value;
      var r2 := r.(signalAnalysis := Some(r.signalAnalysis.value.(frequencyFeatures := Some(ff.(harmonics := Some(hs))))));
      IsFaultFrequency(frequency, r2) == IsFaultFrequency(frequency, r)
      && (IsFaultFrequency(frequency, r) <==> AnyFaultIncludes(FaultsOf(r), "Imbalance"))
  {
    var ff := r.signalAnalysis.value.frequencyFeatures.value;
    var r2 := r.(signalAnalysis := Some(r.signalAnalysis.value.(frequencyFeatures := Some(ff.(harmonics := Some(hs))))));
    assert DominantOf(r2) == DominantOf(r);
    assert FaultsOf(r2) == FaultsOf(r);
  }

  /** Away from the dominant frequency and from every harmonic, nothing is a fault frequency. */
  lemma FarFromEverythingIsNotFault(frequency: real, r: AnalysisResult)
    requires !(DominantOf(r) > 0.0 && Abs(frequency - DominantOf(r)) < 2.0)
    requires forall h :: h in HarmonicsOf(r) ==> Abs(frequency - h.frequency) >= 2.0
    ensures !IsFaultFrequency(frequency, r)
  {
  }

  // ---------------------------------------------------------------------------
  // Time series
  // ---------------------------------------------------------------------------

  function TimePlotOf(r: AnalysisResult): Option<TimePlot> {
    if r.signalAnalysis.Some? && r.signalAnalysis.value.plots.Some? then r.signalAnalysis.value.plots.value.timeDomain
    else None
  }

  /** The backend branch applies: both arrays of `plots.time_domain` are there. */
  predicate HasTimePlot(r: AnalysisResult) {
    var tp := TimePlotOf(r);
    tp.Some? && tp.value.time.Some? && tp.value.amplitude.Some?
  }

  /** `signal_length || 1000` */
  function FallbackLength(r: AnalysisResult): int {
    IntOr(if r.signalAnalysis.Some? then r.signalAnalysis.value.signalLength else None, 1000)
  }

  /** `sampling_rate || 1000` */
  function FallbackRate(r: AnalysisResult): (sr: real)
    ensures sr != 0.0
  {
    OrDefault(if r.signalAnalysis.Some? then r.signalAnalysis.value.samplingRate else None, 1000.0)
  }

  /** The number of points of the synthetic time series: `Math.min(length, 500)`, none if negative. */
  function FallbackPoints(r: AnalysisResult): (n: nat)
    ensures n <= 500
    ensures FallbackLength(r) >= 500 ==> n == 500
    ensures 0 <= FallbackLength(r) <= 500 ==> n == FallbackLength(r)
  {
    var length := FallbackLength(r);
    if length >= 500 then 500 else if length < 0 then 0 else length
  }

  /** `getTimeData`: the backend samples with time in milliseconds, or the
      synthetic series sampled at the result's rate. */
  method GetTimeData(r: AnalysisResult) returns (data: seq<TimePoint>)
    ensures HasTimePlot(r) ==>
      var tp := TimePlotOf(r).value;
      && |data| == |tp.time.value|
      && forall i :: 0 <= i < |data| ==> data[i] == TimePoint(tp.time.value[i] * 1000.0, At(tp.amplitude.value, i))
    ensures !HasTimePlot(r) ==>
      && |data| == FallbackPoints(r)
      && forall i :: 0 <= i < |data| ==> data[i] == TimePoint((i as real) / FallbackRate(r) * 1000.0, Synthesized)
  {
    if HasTimePlot(r) {
      var tp := TimePlotOf(r).value;
      var time, amplitude := tp.time.value, tp.amplitude.value;
      data := seq(|time|, i requires 0 <= i < |time| => TimePoint(time[i] * 1000.0, At(amplitude, i)));
      return;
    }
    var samplingRate := FallbackRate(r);
    var count := FallbackPoints(r);
    data := [];
    for i := 0 to count
      invariant |data| == i
      invariant forall j :: 0 <= j < i ==> data[j] == TimePoint((j as real) / samplingRate * 1000.0, Synthesized)
    {
      var time := (i as real) / samplingRate;
      data := data + [TimePoint(time * 1000.0, Synthesized)];
    }
  }

  /** The synthetic time axis starts at 0 and advances by one sampling period
      (in milliseconds) per point. */
  lemma FallbackTimeAxis(sr: real, i: nat)
    requires sr > 0.0
    ensures (0 as real) / sr * 1000.0 == 0.0
    ensures ((i + 1) as real) / sr * 1000.0 - (i as real) / sr * 1000.0 == 1000.0 / sr
  {
  }

  // ---------------------------------------------------------------------------
  // Frequency series
  // ---------------------------------------------------------------------------

  function FrequencyPlotOf(r: AnalysisResult): Option<FrequencyPlot> {
    if r.signalAnalysis.Some? && r.signalAnalysis.value.plots.Some? then r.signalAnalysis.value.plots.value.frequencyDomain
    else None
  }

  predicate HasFrequencyPlot(r: AnalysisResult) {
    var fp := FrequencyPlotOf(r);
    fp.Some? && fp.value.frequency.Some? && fp.value.magnitude.Some?
  }

  /** `Math.min(samplingRate / 2, 500)`, the top of the synthetic spectrum. */
  function MaxFrequency(r: AnalysisResult): (m: real)
    ensures m <= 500.0 && m != 0.0
  {
    MinReal(FallbackRate(r) / 2.0, 500.0)
  }

  /** The synthetic spectrum has 201 points when its top is positive, none otherwise. */
  function FallbackBins(r: AnalysisResult): nat {
    if MaxFrequency(r) > 0.0 then 201 else 0
  }

  /** `getFrequencyData`: the backend spectrum, or the synthetic one stepping by
      `maxFreq / 200` from 0; every point is tagged by `isFaultFrequency`. */
  method GetFrequencyData(r: AnalysisResult) returns (data: seq<FrequencyPoint>)
    ensures HasFrequencyPlot(r) ==>
      var fp := FrequencyPlotOf(r).value;
      && |data| == |fp.frequency.value|
      && forall i :: 0 <= i < |data| ==>
        data[i] == FrequencyPoint(fp.frequency.value[i], At(fp.magnitude.value, i), IsFaultFrequency(fp.frequency.value[i], r))
    ensures !HasFrequencyPlot(r) ==>
      && |data| == FallbackBins(r)
      && forall i :: 0 <= i < |data| ==>
        data[i] == FrequencyPoint((i as real) * (MaxFrequency(r) / 200.0), Synthesized, IsFaultFrequency(data[i].frequency, r))
  {
    if HasFrequencyPlot(r) {
      var fp := FrequencyPlotOf(r).value;
      var frequency, magnitude := fp.frequency.value, fp.magnitude.value;
      data := seq(|frequency|, i requires 0 <= i < |frequency| =>
        FrequencyPoint(frequency[i], At(magnitude, i), IsFaultFrequency(frequency[i], r)));
      return;
    }
    var maxFreq := MaxFrequency(r);
    var step := maxFreq / 200.0;
    data := [];
    var freq := 0.0;
    var k: nat := 0;
    while freq <= maxFreq
      invariant freq == (k as real) * step
      invariant maxFreq > 0.0 ==> k <= 201
      invariant maxFreq <= 0.0 ==> k == 0
      invariant |data| == k
      invariant forall j :: 0 <= j < k ==>
        data[j] == FrequencyPoint((j as real) * step, Synthesized, IsFaultFrequency(data[j].frequency, r))
      decreases 201 - k
    {
      StepBound(k, step, maxFreq);
      var isFault := CheckFaultFrequency(freq, r);
      data := data + [FrequencyPoint(freq, Synthesized, isFault)];
      freq := freq + step;
      k := k + 1;
    }
    if maxFreq > 0.0 {
      StepBound(k, step, maxFreq);
    }
  }

  /** Bin `k` lies within the spectrum iff `k <= 200`. */
  lemma StepBound(k: nat, step: real, maxFreq: real)
    requires step == maxFreq / 200.0
    ensures maxFreq > 0.0 ==> ((k as real) * step <= maxFreq <==> k <= 200)
  {
    assert (k as real) * step == (k as real) * maxFreq / 200.0;
    if maxFreq > 0.0 {
      if k <= 200 {
        assert (k as real) * maxFreq <= 200.0 * maxFreq;
      } else {
        assert (k as real) * maxFreq > 200.0 * maxFreq;
      }
    }
  }

  /** Every synthetic bin lies in `[0, maxFreq]`, the first at 0 and the last at the top. */
  lemma FallbackBinsInRange(r: AnalysisResult, i: nat)
    requires i < FallbackBins(r)
    ensures 0.0 <= (i as real) * (MaxFrequency(r) / 200.0) <= MaxFrequency(r)
    ensures i == 200 ==> (i as real) * (MaxFrequency(r) / 200.0) == MaxFrequency(r)
  {
    StepBound(i, MaxFrequency(r) / 200.0, MaxFrequency(r));
  }
}
