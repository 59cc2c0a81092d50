# Vibration diagnosis: a verified model of the decision logic

This project models how a machine-vibration monitoring system makes its decisions, and proves properties of that model. The system has a FastAPI backend and a React frontend. The model covers:

- **Backend rule-based diagnosis** (`VibrationAnalysis`). Fault rules over the extracted features, a confidence-weighted health score, and maintenance recommendations. The rules run in a fixed order.
- **Baseline rule engine** (`RuleEngine`). Three ratio checks against a baseline, a health score clamped to 0..100, and the findings list.
- **File loading** (`DataLoader`). The format is chosen by extension. There are CSV, WAV, MAT and raw-binary loaders, with their defaults and priority lists. The error texts carry a per-format prefix.
- **Machine and vibration-record tables** (`Machines`). The in-memory dictionaries of the REST handlers, as a class with 404 errors.
- **Partial machine update** (`Machines`). Only the fields the request sets are applied.
- **Frontend pages, pure logic:**
  - the sort-spec parser of the machine entity (`MachineOrder`);
  - the dashboard figures (`Dashboard`);
  - the analysis page's machine filter (`AnalysisPage`);
  - the fault-type histogram (`FaultChart`);
  - the chart series and fault-frequency tagging of the results panel (`ResultsDisplay`).
- **The two upload pages, as state machines** (`Upload`, `UploadPage`). Each is a class over a per-file status map and a results list. Every call to the backend is an outcome drawn from an input sequence.

`Common` holds Option/Result and small string and sequence helpers. `AnalysisTypes` holds the analysis record that the backend produces and the frontend reads. `Entities` holds the frontend's records and `Math.round` of a mean.

Numbers follow the source's types:

- Floating-point quantities are `real`.
- Health scores and counts are `int`/`nat`.
- Python's `int()` is truncation toward zero.
- Python's `round` on floats rounds half to even.
- JavaScript's `Math.round` of `s / n` is `(2s + n) div (2n)`.

A JavaScript `x || d` on a number treats 0 as absent.

## Model

| member | source | states |
|---|---|---|
| VibrationAnalysis.DetectFaults | backend/app/services/vibration_analysis.py:106-190 | the detected faults are exactly the rule faults, in rule order; `fault_count` is their number; the method is `rule_based` |
| VibrationAnalysis.RuleFaultsPresence | backend/app/services/vibration_analysis.py:115-165 | each fault type is reported iff its rule fires: imbalance (dominant frequency > 0, within 2 Hz of 30 Hz, magnitude > 0.1), bearing (crest factor > 4), impulsive (kurtosis > 5), gear (≥ 3 harmonics, mean magnitude > 0.05), high vibration (rms > 0.5) |
| VibrationAnalysis.RuleFaultsOrdered | backend/app/services/vibration_analysis.py:113-184 | at most five faults, in strictly increasing rule order, so no type occurs twice |
| VibrationAnalysis.RuleFaultsValues | backend/app/services/vibration_analysis.py:118-180 | each reported fault carries its rule's severity formula (`min(100·mag,100)`, `min((cf−3)·25,100)`, `min((k−3)·10,100)`, …) and confidence; every severity lies in (10, 100] |
| VibrationAnalysis.HasFaultTypeConcat | backend/app/services/vibration_analysis.py:113-184 | a fault type occurs in a concatenation iff it occurs in one of the parts |
| VibrationAnalysis.RuleValuesHold | backend/app/services/vibration_analysis.py:115-180 | each rule's contribution carries that rule's values |
| VibrationAnalysis.CalculateHealthScore | backend/app/services/vibration_analysis.py:192-219 | the accumulating loop computes the health score: 95 with no faults, otherwise `int(max(0, 100 − Σsev·conf/Σconf))` with confidence defaulting to 0.5 |
| VibrationAnalysis.HealthScoreBounds | backend/app/services/vibration_analysis.py:195-219 | with non-negative severities and confidences the score is within 0..100, and with zero total confidence it is 95 |
| VibrationAnalysis.SeverityAboveTenScoresBelow90 | backend/app/services/vibration_analysis.py:203-219 | when every fault's severity exceeds 10, the score is below 90 |
| VibrationAnalysis.GenerateRecommendations | backend/app/services/vibration_analysis.py:224-281 | the loop builds exactly the recommendation list: the band item, then the fault items |
| VibrationAnalysis.RecommendationsShape | backend/app/services/vibration_analysis.py:231-272 | exactly one band item comes first (≥ 90 low, ≥ 70 medium, else high); then an Imbalance, Bearing or Gear item iff that exact fault type is present, in that order; length 1..4 |
| VibrationAnalysis.FaultTypesHas | backend/app/services/vibration_analysis.py:251-252 | a type is in the list of fault types iff some fault has it |
| VibrationAnalysis.Diagnose | backend/app/services/vibration_analysis.py:56-76 | detection, score and advice chained: no faults gives 95 and a single low-priority item; any fault gives a score below 90 and a band item that is not low priority |
| RuleEngine.CheckImbalance | backend/app/services/rule_engine.py:8-16 | a baseline ≤ 0 gives `(False, 0.0)`; otherwise it triggers iff cur/base > 1.5; severity is in [0, 100], > 50 when triggered, 0 when not |
| RuleEngine.CheckMisalignment | backend/app/services/rule_engine.py:18-27 | the same shape on the crest factor with threshold 1.4 (severity > 40 when triggered) |
| RuleEngine.RatioCheck | backend/app/services/rule_engine.py:11-16 | the shared check: trigger iff cur > threshold·base for base > 0, severity `clamp((cur/base − 1)·100)` |
| RuleEngine.RatioAbove | backend/app/services/rule_engine.py:13-14 | for a positive base, cur/base > t iff cur > t·base |
| RuleEngine.CheckBearingFaults | backend/app/services/rule_engine.py:29-35 | triggers iff kurtosis > 1.3·base, both defaulting to 3.0; a triggered severity is `clamp((cur/(base + 1e-6) − 1)·100)` and 0 when not triggered, always in [0, 100]; a base of exactly −1e-6 divides by zero |
| RuleEngine.RoundHalfEven | backend/app/services/rule_engine.py:42 | Python `round`: the nearest integer, strictly within 0.5 of a non-tie; at a tie (fraction exactly 0.5) the even neighbour |
| RuleEngine.RoundHalfEvenMonotone | backend/app/services/rule_engine.py:42 | rounding preserves order |
| RuleEngine.CalculateHealthScore | backend/app/services/rule_engine.py:37-42 | the subtracting loop computes `max(0, min(100, round(100 − 0.3·Σsev)))`, always within 0..100 |
| RuleEngine.HealthScoreBounds | backend/app/services/rule_engine.py:37-42 | the score is within [0, 100] and is 100 with no detections |
| RuleEngine.HealthScoreNonIncreasing | backend/app/services/rule_engine.py:40-42 | adding a detection with non-negative severity never raises the score |
| RuleEngine.Evaluate | backend/app/services/rule_engine.py:44-59 | the method appends the findings of the triggered checks, or fails with the bearing check's division error |
| RuleEngine.FindingsShape | backend/app/services/rule_engine.py:44-59 | the findings are exactly the triggered checks, in the order Imbalance, Misalignment, Bearing Fault, each carrying its own check's severity and the confidence 0.7, 0.6 or 0.55; at most three; `evaluate` fails iff the bearing check does |
| RuleEngine.FindingListShape | backend/app/services/rule_engine.py:45-59 | each triggered check contributes one finding, in check order |
| DataLoader.ErrorMessage | backend/app/services/data_loader.py:43-196 | "Unsupported file format: ext", or the loader's prefix followed by the inner message |
| DataLoader.AfterLastDot | backend/app/services/data_loader.py:31 | the text after the last `'.'`: a dot-free suffix preceded by a dot, or the whole string |
| DataLoader.ExtensionIsLastSegment | backend/app/services/data_loader.py:31 | the extension is the lower-cased text after the last dot |
| DataLoader.Load | backend/app/services/data_loader.py:31-43 | an unsupported-format error iff the extension is none of the five, naming that extension; a loader failure carries the format the extension selects |
| DataLoader.LoadFromBytes | backend/app/services/data_loader.py:31-43 | the method returns exactly the dispatch result |
| DataLoader.DispatchRules | backend/app/services/data_loader.py:33-43 | csv, wav and mat go to their loaders; tdms and mdf both go to the binary loader; any other extension fails with "Unsupported file format" |
| DataLoader.CsvRate | backend/app/services/data_loader.py:55-68 | the override when given; otherwise a positive rate, 1000 when the time column has at most one entry |
| DataLoader.LoadCsv | backend/app/services/data_loader.py:45-82 | zero columns fails; one column is the signal, with rate 1000 unless given; otherwise column 2 is the signal and the rate is `1/mean(dt)` when positive, else 1000; errors carry the CSV prefix |
| DataLoader.CsvRateFromSpan | backend/app/services/data_loader.py:64-68 | without an override the rate is the step count over the time span, or 1000 when the span is not positive |
| DataLoader.SumOfStepsSpan | backend/app/services/data_loader.py:65 | the steps of the time column sum to its span |
| DataLoader.LoadWav | backend/app/services/data_loader.py:84-126 | only sample widths 1, 2 and 4 load; multi-channel input keeps channel 0; widths > 1 are divided by `2^(8w−1)`; errors carry the WAV prefix |
| DataLoader.WavChannelZero | backend/app/services/data_loader.py:107-108 | with c channels, sample i of the signal is frame sample i·c |
| DataLoader.WavScales | backend/app/services/data_loader.py:112-113 | the divisors are 32768 for width 2 and 2147483648 for width 4; width 1 is not scaled |
| DataLoader.StrideSamples | backend/app/services/data_loader.py:108 | taking every n-th sample yields `k` samples, sample i being `s[i·n]` |
| DataLoader.DataKeys | backend/app/services/data_loader.py:135 | exactly the keys not starting with `__`, each a variable of the file |
| DataLoader.Lookup | backend/app/services/data_loader.py:147-180 | the value a present name is stored under |
| DataLoader.FirstPresent | backend/app/services/data_loader.py:147-180 | the chosen name is a present name from the list; none chosen means none present |
| DataLoader.FirstNumeric | backend/app/services/data_loader.py:153-158 | none is found iff no key holds a float or complex array; otherwise the value is that of the first key in key order that holds one |
| DataLoader.SelectSignal | backend/app/services/data_loader.py:141-158 | the two search loops choose the specified signal |
| DataLoader.FindRate | backend/app/services/data_loader.py:171-183 | the rate loop, run only without an override, chooses the specified rate |
| DataLoader.LoadMatFile | backend/app/services/data_loader.py:128-196 | the method returns exactly the specified MAT loading result |
| DataLoader.MatResult | backend/app/services/data_loader.py:137-196 | every failure carries the MAT prefix |
| DataLoader.LoadMat | backend/app/services/data_loader.py:128-196 | every failure carries the MAT prefix |
| DataLoader.MatNeedsDataKeys | backend/app/services/data_loader.py:135-138 | only `__` keys means no data keys, and loading fails with "No data found in .mat file" |
| DataLoader.MatSignalPriority | backend/app/services/data_loader.py:145-150 | the first present name of data, signal, vibration, x, y, acceleration, velocity is the signal |
| DataLoader.FirstPresentIsFirst | backend/app/services/data_loader.py:147-150 | a present name that no earlier name precedes is the one chosen |
| DataLoader.MatNumericFallback | backend/app/services/data_loader.py:153-161 | with no priority name present, the chosen signal is the first data key in key order holding a float or complex array; loading fails with "No suitable numeric data" iff there are data keys and none holds one |
| DataLoader.MatNoNumericIff | backend/app/services/data_loader.py:135-161 | "No suitable numeric data" is the result iff there are data keys and no signal is chosen; every later failure has a different text |
| DataLoader.MatRate | backend/app/services/data_loader.py:142-183 | an override is the rate; without one and with no rate name present the rate is 1000; a failure is a scalar or conversion error |
| DataLoader.MatRatePriority | backend/app/services/data_loader.py:171-180 | without an override, the first present name of fs, sampling_rate, sample_rate, sr, freq gives the rate |
| DataLoader.MatOverrideWins | backend/app/services/data_loader.py:142-171 | an override skips the search and is the loaded rate |
| DataLoader.MatRowVectorIsOneSample | backend/app/services/data_loader.py:163-168 | a multi-column array's signal is its first column |
| DataLoader.ToReals | backend/app/services/data_loader.py:111-113 | the samples converted and divided element-wise |
| DataLoader.LoadBinary | backend/app/services/data_loader.py:198-222 | loads iff the length is a multiple of 4, as float32 values with rate defaulting to 1000; otherwise it fails with the binary prefix |
| Machines.Put | backend/app/api/endpoints/machines.py:88-118 | `db[k] = v`: a new key is appended to the order, an existing key keeps its place; the table stays well formed |
| Machines.Remove | backend/app/api/endpoints/machines.py:144 | `del db[k]`: exactly that key leaves the entries, and the order is the old order with that key filtered out, the others keeping their places |
| Machines.Values | backend/app/api/endpoints/machines.py:96-169 | `list(db.values())` in insertion order |
| Machines.UpdateChangesSetFields | backend/app/api/endpoints/machines.py:128-131 | applying `exclude_unset` data with `setattr` changes exactly the set fields, to the requested values |
| Machines.PatchedUpToFields | backend/app/api/endpoints/machines.py:130-131 | after the first n assignments, exactly the first n declared fields carry the request's values |
| Machines.SetAllConcat | backend/app/api/endpoints/machines.py:130-131 | applying assignments in two runs equals applying them in one |
| Machines.SeededDefaults | backend/app/api/endpoints/machines.py:42-88 | seeding an empty table with distinct ids yields exactly the three defaults, in order |
| Machines.UpdateKeepsIdentity | backend/app/api/endpoints/machines.py:127-134 | an update keeps `id` and `created_at` and sets `updated_at` |
| Machines.Store.constructor | backend/app/api/endpoints/machines.py:37-148 | both tables start empty |
| Machines.Store.InitializeDefaultMachines | backend/app/api/endpoints/machines.py:40-88 | seeds the three defaults only when the machine table is empty, and otherwise changes nothing |
| Machines.Store.GetMachines | backend/app/api/endpoints/machines.py:93-96 | every stored machine, in insertion order |
| Machines.Store.GetMachine | backend/app/api/endpoints/machines.py:98-103 | the stored machine, or 404 "Machine not found" |
| Machines.Store.CreateMachine | backend/app/api/endpoints/machines.py:105-119 | exactly one new entry under the fresh id, with `created_at == updated_at`; other entries unchanged |
| Machines.Store.UpdateMachine | backend/app/api/endpoints/machines.py:121-136 | applies only the set fields and refreshes `updated_at`; an unknown id is a 404 with no change |
| Machines.Store.DeleteMachine | backend/app/api/endpoints/machines.py:138-145 | the table becomes `Remove(old, id)`, which keeps the other machines in insertion order, or a 404 with no change |
| Machines.Store.GetVibrationRecords | backend/app/api/endpoints/machines.py:166-169 | every stored record, in insertion order |
| Machines.Store.GetVibrationRecordsByMachine | backend/app/api/endpoints/machines.py:171-175 | exactly the records with that machine id, in table order |
| Machines.Store.CreateVibrationRecord | backend/app/api/endpoints/machines.py:177-190 | stores the new record under the fresh id; others unchanged |
| Machines.Store.DeleteVibrationRecord | backend/app/api/endpoints/machines.py:192-199 | the table becomes `Remove(old, id)`, which keeps the other records in insertion order, or 404 "Vibration record not found" with no change |
| MachineOrder.StripSign | frontend/src/entities/Machine.ts:14 | one leading `-` or `+` is dropped, and nothing else changes |
| MachineOrder.ParseOrder | frontend/src/entities/Machine.ts:12-16 | ascending is false exactly when the order starts with `-`; undefined or empty gives `created_at` ascending; otherwise the field is the order with one leading sign stripped |
| MachineOrder.SignedRoundTrip | frontend/src/entities/Machine.ts:12-16 | a sign followed by a field parses back to that field and direction |
| MachineOrder.DoubleMinusKeepsOne | frontend/src/entities/Machine.ts:14 | only one sign is stripped from `--x` |
| MachineOrder.PlusIsAscending | frontend/src/entities/Machine.ts:13-14 | `+x` sorts ascending on `x` |
| MachineOrder.MinusAlone | frontend/src/entities/Machine.ts:13-14 | a bare `-` sorts descending on the empty field |
| Entities.RoundedMean | frontend/src/pages/Dashboard.tsx:29 | `Math.round(s/n)` lies in `[s/n − 0.5, s/n + 0.5)` |
| Entities.AverageHealth | frontend/src/pages/Dashboard.tsx:28-30 | 0 with no machines, otherwise the rounded mean health score |
| Entities.AverageHealthWithin | frontend/src/pages/Dashboard.tsx:28-30 | the average lies between the lowest and highest score |
| Dashboard.DashboardStats | frontend/src/pages/Dashboard.tsx:25-30 | counts of active machines and of detections above 80, the record count, the rounded average, and the first 6 machines and 5 records shown |
| Dashboard.ActiveCountStep | frontend/src/pages/Dashboard.tsx:25 | adding a machine adds one to the active count iff its status is `active` |
| Dashboard.CriticalIsStrictlyAbove80 | frontend/src/pages/Dashboard.tsx:26 | a detection is critical iff its severity exceeds 80 |
| Dashboard.AverageInRange | frontend/src/pages/Dashboard.tsx:28-30 | scores within 0..100 give an average within 0..100 |
| AnalysisPage.FilteredRecords | frontend/src/pages/Analysis.tsx:22-24 | `all` keeps every record; otherwise exactly the records of the selected machine |
| AnalysisPage.FilteredDetections | frontend/src/pages/Analysis.tsx:26-28 | exactly the detections whose record is among the filtered records |
| AnalysisPage.FilteredMachines | frontend/src/pages/Analysis.tsx:30-32 | `all` keeps every machine; otherwise exactly the selected one |
| AnalysisPage.Summarize | frontend/src/pages/Analysis.tsx:34-39 | the rounded average of the filtered machines (0 when none), the number of filtered records marked processed, and the fault count of the filtered detections |
| AnalysisPage.SelectionNarrows | frontend/src/pages/Analysis.tsx:22-28 | selecting a machine never shows a record or detection that `all` does not |
| AnalysisPage.FilteredRecordsKeepOrder | frontend/src/pages/Analysis.tsx:22-24 | filtering distributes over concatenation, so order is kept |
| AnalysisPage.FilteredDetectionsKeepOrder | frontend/src/pages/Analysis.tsx:26-28 | filtering detections distributes over concatenation |
| FaultChart.CountFaults | frontend/src/components/analysis/FaultChart.tsx:10-13 | the reduce loop yields one key per fault type, in first-occurrence order, each with its number of detections |
| FaultChart.CountStep | frontend/src/components/analysis/FaultChart.tsx:11 | `acc[t] = (acc[t] \|\| 0) + 1` keeps the counting object right for one more detection |
| FaultChart.FirstOccurrences | frontend/src/components/analysis/FaultChart.tsx:15 | the key order: distinct, and holding exactly the types present |
| FaultChart.CountZero | frontend/src/components/analysis/FaultChart.tsx:11 | a count is zero iff the type does not occur |
| FaultChart.Entries | frontend/src/components/analysis/FaultChart.tsx:15-16 | one `{name, count}` per key, with its count |
| FaultChart.Insert | frontend/src/components/analysis/FaultChart.tsx:17 | insertion adds exactly one entry, as a permutation |
| FaultChart.SortByCount | frontend/src/components/analysis/FaultChart.tsx:17 | sorting is a permutation of the entries |
| FaultChart.SortNonIncreasing | frontend/src/components/analysis/FaultChart.tsx:17 | the sorted counts never increase |
| FaultChart.InsertNonIncreasing | frontend/src/components/analysis/FaultChart.tsx:17 | inserting into a non-increasing list keeps it non-increasing |
| FaultChart.BuildChartData | frontend/src/components/analysis/FaultChart.tsx:10-17 | the component's data is the specified chart data |
| FaultChart.ChartTypesOnce | frontend/src/components/analysis/FaultChart.tsx:10-17 | each fault type of the detections is one bar, and no type is a bar twice |
| FaultChart.SortKeepsNames | frontend/src/components/analysis/FaultChart.tsx:17 | sorting keeps the set of names and their distinctness |
| FaultChart.ChartCounts | frontend/src/components/analysis/FaultChart.tsx:10-17 | a bar's height is the number of detections of its type |
| FaultChart.ChartTotal | frontend/src/components/analysis/FaultChart.tsx:10-17 | the bars add up to the number of detections |
| FaultChart.CountsCoverAll | frontend/src/components/analysis/FaultChart.tsx:10-13 | counting over the distinct keys accounts for each detection once |
| FaultChart.SortKeepsSum | frontend/src/components/analysis/FaultChart.tsx:17 | sorting keeps the total |
| FaultChart.ChartEmptyIff | frontend/src/components/analysis/FaultChart.tsx:19-25 | the "no fault data" placeholder shows iff there are no detections |
| FaultChart.SortNonIncreasingChart | frontend/src/components/analysis/FaultChart.tsx:15-17 | bars appear by non-increasing count |
| ResultsDisplay.HasErrors | frontend/src/components/analysis/AnalysisResultsDisplay.tsx:69 | true iff some result has status `error` |
| ResultsDisplay.At | frontend/src/components/analysis/AnalysisResultsDisplay.tsx:78-104 | the value at an index, or undefined past the end |
| ResultsDisplay.CheckFaultFrequency | frontend/src/components/analysis/AnalysisResultsDisplay.tsx:139-158 | the loop with early return computes the fault-frequency rule |
| ResultsDisplay.DominantDecides | frontend/src/components/analysis/AnalysisResultsDisplay.tsx:142-148 | near a positive dominant frequency the answer is "some fault contains Imbalance", whatever the harmonics |
| ResultsDisplay.NoFaultsNoFaultFrequency | frontend/src/components/analysis/AnalysisResultsDisplay.tsx:141-157 | no detected faults means no fault frequency |
| ResultsDisplay.FarFromEverythingIsNotFault | frontend/src/components/analysis/AnalysisResultsDisplay.tsx:146-157 | far from the dominant frequency and every harmonic, it is not a fault frequency |
| ResultsDisplay.IntOr | frontend/src/components/analysis/AnalysisResultsDisplay.tsx:84 | `x \|\| d` on a possibly undefined integer |
| ResultsDisplay.FallbackRate | frontend/src/components/analysis/AnalysisResultsDisplay.tsx:85 | the fallback rate is never 0 |
| ResultsDisplay.FallbackPoints | frontend/src/components/analysis/AnalysisResultsDisplay.tsx:84-89 | `min(signal_length \|\| 1000, 500)` points, at most 500 |
| ResultsDisplay.GetTimeData | frontend/src/components/analysis/AnalysisResultsDisplay.tsx:71-95 | with backend arrays, one point per time entry at `time·1000` with the amplitude at that index; otherwise the fallback count of points at `i/rate·1000` |
| ResultsDisplay.FallbackTimeAxis | frontend/src/components/analysis/AnalysisResultsDisplay.tsx:90-92 | the fallback axis starts at 0 and advances by `1000/rate` |
| ResultsDisplay.MaxFrequency | frontend/src/components/analysis/AnalysisResultsDisplay.tsx:111-116 | the top of the spectrum is at most 500 Hz and never 0 |
| ResultsDisplay.GetFrequencyData | frontend/src/components/analysis/AnalysisResultsDisplay.tsx:97-137 | with backend arrays, one point per frequency, tagged by the fault-frequency rule; otherwise the bins `k·maxFreq/200` for k = 0..200, tagged the same way |
| ResultsDisplay.StepBound | frontend/src/components/analysis/AnalysisResultsDisplay.tsx:117-119 | for a positive top, bin k is within the spectrum iff k ≤ 200 |
| ResultsDisplay.FallbackBinsInRange | frontend/src/components/analysis/AnalysisResultsDisplay.tsx:116-119 | every fallback bin lies in `[0, maxFreq]`, the last at the top |
| Upload.FileResult | frontend/src/pages/Upload.tsx:176-229 | a file ends `completed` at 100 with its record id iff both calls succeed; otherwise it ends `error` with the thrown message, at 10 (upload failed) or 50 (record failed) |
| Upload.FreshRecordIdIffCompleted | frontend/src/pages/Upload.tsx:214-222 | from a fresh entry, a file has a record id iff it completed |
| Upload.Classify | frontend/src/pages/Upload.tsx:291-316 | the first of `fetch`, `timeout`, `400`, `500` in the message decides the class; otherwise unknown, keeping the message; a non-Error gives "Analysis failed"/unknown |
| Upload.ClassifiedMessages | frontend/src/pages/Upload.tsx:296-309 | every known class uses its fixed text |
| Upload.ErrorResult | frontend/src/pages/Upload.tsx:311-317 | the error entry carries the record id, status `error`, and the classified message and type |
| Upload.UploadCandidates | frontend/src/pages/Upload.tsx:257-260 | the truthy record ids of the status map, in key order |
| Upload.UploadCandidatesMembers | frontend/src/pages/Upload.tsx:257-260 | an id is a candidate iff some entry carries it as a non-empty record id |
| Upload.RetryCandidates | frontend/src/pages/Upload.tsx:252-254 | one id per result with status `error`: every candidate comes from an error entry, every error entry's id is a candidate, and their number is the error count |
| Upload.RetryCandidatesConcat | frontend/src/pages/Upload.tsx:252-254 | the candidates keep the results' order: those of a concatenation are the first part's, then the second's |
| Upload.FullPass | frontend/src/pages/Upload.tsx:268-326 | one result per candidate, in candidate order: the backend's answer or the error entry |
| Upload.FindIndex | frontend/src/pages/Upload.tsx:277-320 | `findIndex`: the first entry with that record id, or none |
| Upload.RetryKeepsOthers | frontend/src/pages/Upload.tsx:268-326 | retrying never shortens the list and never touches an entry whose id was not retried |
| Upload.RetryKeepsIds | frontend/src/pages/Upload.tsx:275-326 | when the backend answers about the requested record, retrying keeps the length and each position's id |
| Upload.RetryOverwritesFirst | frontend/src/pages/Upload.tsx:277-279 | a retried entry replaces the first entry with its id |
| Upload.NoticeFor | frontend/src/pages/Upload.tsx:333-343 | one of the three toasts: success iff no error entry; partial failure iff some but not all entries are errors, reporting the error count and the success count; total failure iff the list is non-empty and every entry is an error |
| Upload.ErrorCountBound | frontend/src/pages/Upload.tsx:334 | the error count is at most the list length, and is 0 iff no entry failed |
| Upload.UploadSession.constructor | frontend/src/pages/Upload.tsx:34-39 | empty files and statuses, flags off, default metadata without a machine |
| Upload.UploadSession.HandleFileSelect | frontend/src/pages/Upload.tsx:143-151 | exactly one `pending`/0/null entry per file index, nothing else changed |
| Upload.UploadSession.ProcessFile | frontend/src/pages/Upload.tsx:176-229 | one file goes through uploading/10, 50, 80 with its record id, then completed/100; a failing call stops it at `error` with the message |
| Upload.UploadSession.ProcessFiles | frontend/src/pages/Upload.tsx:153-238 | with no files or machine: the notice and no change; otherwise every file in index order; the success notice shows iff no file failed; `allCompleted` iff all succeeded; `hasErrors` iff one failed; not uploading after |
| Upload.UploadSession.HasErrors | frontend/src/pages/Upload.tsx:369-371 | some file failed, so at least one file is listed |
| Upload.UploadSession.AllCompleted | frontend/src/pages/Upload.tsx:366-368 | at least one file is listed and none failed |
| Upload.UploadSession.StatusSummary | frontend/src/pages/Upload.tsx:366-371 | after a pass, `allCompleted` and `hasErrors` follow from the outcomes |
| Upload.UploadSession.ProcessAnalysis | frontend/src/pages/Upload.tsx:241-350 | no candidates: the right notice, results cleared unless retrying; otherwise a full pass replaces the results, or a retry pass places new entries; results shown and the notice from the counts; never processing after |
| Upload.UploadSession.AnalyzeAll | frontend/src/pages/Upload.tsx:268-326 | the analysis loop computes the full or the retry pass |
| Upload.UploadSession.FailedIds | frontend/src/pages/Upload.tsx:252-254 | the filter/map computes the retry candidates |
| Upload.UploadSession.RecordedIds | frontend/src/pages/Upload.tsx:257-260 | the filter/map computes the upload candidates |
| Upload.UploadSession.ClickAnalyzeAsWritten | frontend/src/pages/Upload.tsx:422-425 | the analyse button as wired takes the retry branch, so with no results yet it analyses nothing |
| Upload.UploadSession.ClickAnalyze | frontend/src/pages/Upload.tsx:241-350 | the button as intended: a full pass, one result per recorded id |
| Upload.UploadSession.RetryFailed | frontend/src/pages/Upload.tsx:492 | with no failed results, "No failed records to retry" and nothing changes; otherwise the results become the retry pass over the failed ids, the panel shows and the toast follows from the new results; entries not retried are kept, the list never shrinks, the upload state is unchanged and processing ends |
| Upload.UploadSession.ResetUpload | frontend/src/pages/Upload.tsx:352-364 | no files, statuses or results; flags off; metadata reset to the first machine (or none), "Drive End", "Horizontal", "12000" |
| Upload.ClickAfterUploadSendsNothing | frontend/src/pages/Upload.tsx:251-260 | after one recorded upload the full pass would send that id, while the retry branch has nothing to send |
| Upload.FreshBatchCandidates | frontend/src/pages/Upload.tsx:214-260 | after a fresh batch, the candidates are exactly the ids of the files whose record was created |
| UploadPage.ErrorText | frontend/src/pages/UploadPage.tsx:67 | `err?.message \|\| 'Upload failed'`: the message when non-empty, otherwise the fallback; never empty |
| UploadPage.FileResult | frontend/src/pages/UploadPage.tsx:52-68 | completed at 100 iff both calls succeed; otherwise `error` at 10 or 60 with the text |
| UploadPage.FailedFilesExplain | frontend/src/pages/UploadPage.tsx:66-68 | every failed file carries a non-empty error |
| UploadPage.UploadPageSession.constructor | frontend/src/pages/UploadPage.tsx:11-21 | empty state and five blank form fields |
| UploadPage.UploadPageSession.HandleFileSelect | frontend/src/pages/UploadPage.tsx:36-44 | exactly one `pending`/0/null entry per file index |
| UploadPage.UploadPageSession.ProcessFile | frontend/src/pages/UploadPage.tsx:52-68 | uploading/10, 60 after the upload, completed/100 after the record; a throw marks `error` and keeps the progress reached |
| UploadPage.UploadPageSession.ProcessFiles | frontend/src/pages/UploadPage.tsx:46-73 | does nothing without files or a machine; otherwise every file in order, not uploading after, `allCompleted` iff all succeeded, `hasErrors` iff one failed |
| UploadPage.UploadPageSession.HasErrors | frontend/src/pages/UploadPage.tsx:82 | some file failed, so at least one file is listed |
| UploadPage.UploadPageSession.AllCompleted | frontend/src/pages/UploadPage.tsx:81 | at least one file is listed and none failed |
| UploadPage.UploadPageSession.StatusSummary | frontend/src/pages/UploadPage.tsx:81-82 | the two flags follow from the outcomes |
| UploadPage.UploadPageSession.ResetUpload | frontend/src/pages/UploadPage.tsx:75-79 | no files or statuses, every form field blank |

## Left out

- Signal processing: `VibrationAnalysisService.process_record` reads files and calls the signal processor and storage, whose features are inputs here. The processor's numerics are not part of this model.
- Byte parsing: `pandas`, `wave`, `scipy.io.loadmat` and `np.frombuffer` are replaced by what they yield (columns, frames, variables, float32 values), given as fields of the file.
- DataLoader.LoadBinary: the float32 values are a field of the file, and nothing ties their number to the byte length divided by four.
- DataLoader.RateValue: a character-array rate variable is rejected as not convertible. Python's `float` would accept a string that spells a number; the model does not.
- Library error texts: the inner messages of library exceptions are opaque strings. Only the prefixes and the loader's own messages are exact.
- `.mat` arrays of three or more dimensions are not modelled; arrays are two-dimensional.
- Lower-casing: `str.lower` is modelled on ASCII letters only. Unicode case mapping is out of scope.
- Machines.Store.UpdateMachine: a request that sets a field to an explicit `null` is not distinguished from setting it to a value.
- Fresh ids and timestamps: `uuid4` and `utcnow` are parameters of the handlers. Their freshness is not assumed.
- `Math.random`: the synthetic chart amplitudes and magnitudes are tagged `Synthesized` rather than computed.
- ResultsDisplay.GetFrequencyData: the fallback grid is computed as `k · step` for k = 0..200, not by repeatedly adding `step` in floating point. IEEE rounding could give one bin fewer.
- FaultChart.SortByCount: realised as a stable insertion sort. Entries of equal count keep first-occurrence order, which the model does not state as a property.
- Object key order: `Object.entries` and `Object.values` are taken in insertion order for fault types and in ascending key order for file indices. Integer-like fault-type names are not treated specially. Nor are names of `Object.prototype` members: the source reduces into `{}`, so a fault type "constructor" or "toString" starts from the inherited function and gets a concatenated string as its count, and "__proto__" is dropped from the entries. The model counts these names like any other.
- VibrationAnalysis.DetectFaults: the `except` branch, which appends an "Analysis Error" fault (severity 50, confidence 1.0), is not modelled. Features are numbers or absent in this model, so no rule can raise.
- VibrationAnalysis.CalculateHealthScore: the `except` fallback score of 50 is not modelled. Severities and confidences are numbers or absent, so the computation cannot raise.
- VibrationAnalysis.GenerateRecommendations: the `except` fallback "Manual inspection recommended" (priority medium) is not modelled, for the same reason.
- Health scores on the frontend are whole numbers.
- Network, Supabase, toasts, console logging, React rendering and concurrency are left out. Each handler runs to completion before the next event.
- Upload.UploadSession.ProcessFiles: a thrown value without a `message` is not modelled; the error text is always a string. An absent `record_id` in the record response is modelled as an empty id, which is falsy.
- Upload.UploadSession.ProcessAnalysis: the outer `catch` that reports "Analysis failed: …" is not modelled, since with the calls as outcomes nothing inside the loop throws. The analysis timestamp of an error entry is left out.
- The loading of the machine list for the reset default is left out: the list of machine ids is a field.
- The analysis page's data loading and the Reports page's date filter are not part of this model.

## Findings

| source | as written | input that shows it | evidently intended | confidence | as-written member | corrected member |
|---|---|---|---|---|---|---|
| frontend/src/pages/Upload.tsx:423 | `onClick={processAnalysis}`. `NeumorphicButton` forwards the click event, which arrives as `retryFailedOnly` and is truthy, so the analyse button always takes the retry branch | upload one file successfully, then press "Process & Analyze Files" with no results yet: the failed-results filter is empty, "No failed records to retry" is shown, and nothing is analysed | `onClick={() => processAnalysis(false)}`: a full pass over the recorded ids | high (not executed) | Upload.UploadSession.ClickAnalyzeAsWritten | Upload.UploadSession.ClickAnalyze |
