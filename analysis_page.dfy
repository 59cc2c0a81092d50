/** The analysis page's machine filter and the figures derived from it. */
module AnalysisPage {
  import opened Common
  import opened Entities

  /** The selector value that keeps every machine. */
  const AllMachines := "all"

  /** `filteredRecords` */
  function FilteredRecords(records: seq<VibrationRecord>, selected: string): (r: seq<VibrationRecord>)
    ensures selected == AllMachines ==> r == records
    ensures selected != AllMachines ==> r == Filter(records, (x: VibrationRecord) => x.machineId == selected)
    ensures selected != AllMachines ==>
      forall x :: x in r <==> x in records && x.machineId == selected
  {
    if selected == AllMachines then records
    else Filter(records, (x: VibrationRecord) => x.machineId == selected)
  }

  /** Some record of `rs` is the one the detection belongs to. */
  predicate HasRecord(rs: seq<VibrationRecord>, d: FaultDetection) {
    exists x :: x in rs && x.id == d.recordId
  }

  /** `filteredDetections`: the detections of the filtered records, in their own order. */
  function FilteredDetections(records: seq<VibrationRecord>, detections: seq<FaultDetection>, selected: string): (r: seq<FaultDetection>)
    ensures |r| <= |detections|
    ensures forall d :: d in r <==> d in detections && HasRecord(FilteredRecords(records, selected), d)
  {
    var fr := FilteredRecords(records, selected);
    Filter(detections, (d: FaultDetection) => HasRecord(fr, d))
  }

  /** `filteredMachines` */
  function FilteredMachines(machines: seq<Machine>, selected: string): (r: seq<Machine>)
    ensures selected == AllMachines ==> r == machines
    ensures selected != AllMachines ==> forall m :: m in r <==> m in machines && m.id == selected
  {
    if selected == AllMachines then machines
    else Filter(machines, (m: Machine) => m.id == selected)
  }

  /** The summary cards of the page. */
  datatype Summary = Summary(avgHealthScore: int, processedRecordsCount: nat, faultCount: nat)

  function Summarize(records: seq<VibrationRecord>, detections: seq<FaultDetection>, machines: seq<Machine>, selected: string): (s: Summary)
    ensures var fm := FilteredMachines(machines, selected);
      && (fm == [] ==> s.avgHealthScore == 0)
      && (fm != [] ==> (s.avgHealthScore as real) - 0.5 <= (SumHealth(fm) as real) / (|fm| as real) < (s.avgHealthScore as real) + 0.5)
    ensures s.processedRecordsCount == |Filter(FilteredRecords(records, selected), (x: VibrationRecord) => x.processed)|
    ensures s.processedRecordsCount <= |FilteredRecords(records, selected)|
    ensures s.faultCount == |FilteredDetections(records, detections, selected)| <= |detections|
  {
    var fr := FilteredRecords(records, selected);
    Summary(
      AverageHealth(FilteredMachines(machines, selected)),
      |Filter(fr, (x: VibrationRecord) => x.processed)|,
      |FilteredDetections(records, detections, selected)|)
  }

  /** Selecting a machine never shows more records or detections than `all`. */
  lemma SelectionNarrows(records: seq<VibrationRecord>, detections: seq<FaultDetection>, selected: string)
    ensures forall x :: x in FilteredRecords(records, selected) ==> x in FilteredRecords(records, AllMachines)
    ensures forall d :: d in FilteredDetections(records, detections, selected) ==>
      d in FilteredDetections(records, detections, AllMachines)
  {
    forall d | d in FilteredDetections(records, detections, selected)
      ensures d in FilteredDetections(records, detections, AllMachines)
    {
      var x :| x in FilteredRecords(records, selected) && x.id == d.recordId;
      assert HasRecord(FilteredRecords(records, AllMachines), d);
    }
  }

  /** Filtered records keep their order: the filter of a concatenation is the
      concatenation of the filters. */
  lemma FilteredRecordsKeepOrder(rs: seq<VibrationRecord>, ts: seq<VibrationRecord>, selected: string)
    ensures FilteredRecords(rs + ts, selected) == FilteredRecords(rs, selected) + FilteredRecords(ts, selected)
  {
    if selected != AllMachines {
      FilterConcat(rs, ts, (x: VibrationRecord) => x.machineId == selected);
    }
  }

  /** Filtered detections keep their order in the same sense. */
  lemma FilteredDetectionsKeepOrder(records: seq<VibrationRecord>, ds: seq<FaultDetection>, es: seq<FaultDetection>, selected: string)
    ensures FilteredDetections(records, ds + es, selected)
      == FilteredDetections(records, ds, selected) + FilteredDetections(records, es, selected)
  {
    var fr := FilteredRecords(records, selected);
    FilterConcat(ds, es, (d: FaultDetection) => HasRecord(fr, d));
  }
}
