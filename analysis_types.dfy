/** The analysis record as the backend produces it and the frontend reads it.
    Every key that the source reads with a default (`dict.get(k, d)` in Python,
    optional chaining in TypeScript) is an `Option`. */
module AnalysisTypes {
  import opened Common

  /** One detected fault: `fault_type`, `severity`, `confidence`
      (the free-text `description` and the per-rule evidence key are not modelled). */
  datatype Fault = Fault(faultType: string, severity: Option<real>, confidence: Option<real>)

  datatype TimeFeatures = TimeFeatures(
    rms: Option<real>,
    crestFactor: Option<real>,
    kurtosis: Option<real>)

  datatype Harmonic = Harmonic(frequency: real, magnitude: Option<real>)

  datatype FrequencyFeatures = FrequencyFeatures(
    dominantFrequency: Option<real>,
    dominantMagnitude: Option<real>,
    harmonics: Option<seq<Harmonic>>)

  /** `plots.time_domain`: parallel `time`/`amplitude` arrays. */
  datatype TimePlot = TimePlot(time: Option<seq<real>>, amplitude: Option<seq<real>>)

  /** `plots.frequency_domain`: parallel `frequency`/`magnitude` arrays. */
  datatype FrequencyPlot = FrequencyPlot(frequency: Option<seq<real>>, magnitude: Option<seq<real>>)

  datatype Plots = Plots(timeDomain: Option<TimePlot>, frequencyDomain: Option<FrequencyPlot>)

  /** `signal_analysis`, the output of the signal processor. */
  datatype SignalAnalysis = SignalAnalysis(
    signalLength: Option<int>,
    samplingRate: Option<real>,
    timeFeatures: Option<TimeFeatures>,
    frequencyFeatures: Option<FrequencyFeatures>,
    plots: Option<Plots>)

  /** `fault_detection` */
  datatype FaultDetection = FaultDetection(detectedFaults: seq<Fault>, faultCount: int, analysisMethod: string)

  /** The classes into which the upload page sorts analysis failures. */
  datatype ErrorKind = Network | Timeout | Validation | Server | Unknown

  /** One entry of the analysis results list: either what the analysis endpoint
      returned or the error entry the client builds for a failed call. */
  datatype AnalysisResult = AnalysisResult(
    recordId: string,
    status: string,
    errorMessage: Option<string>,
    errorType: Option<ErrorKind>,
    signalAnalysis: Option<SignalAnalysis>,
    faultDetection: Option<FaultDetection>)
}
