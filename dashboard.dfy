/** The figures on the dashboard's stat cards and the two capped lists. */
module Dashboard {
  import opened Common
  import opened Entities

  function IsActive(m: Machine): bool { m.status == "active" }

  function IsCritical(d: FaultDetection): bool { d.severityScore > 80.0 }

  /** The values the dashboard derives from its three lists. */
  datatype Stats = Stats(
    activeMachines: nat,
    criticalAlerts: nat,
    totalRecords: nat,
    avgHealthScore: int,
    shownMachines: seq<Machine>,
    shownRecords: seq<VibrationRecord>)

  function DashboardStats(machines: seq<Machine>, detections: seq<FaultDetection>, records: seq<VibrationRecord>): (st: Stats)
    ensures st.activeMachines == |Filter(machines, IsActive)| <= |machines|
    ensures st.criticalAlerts == |Filter(detections, IsCritical)| <= |detections|
    ensures st.totalRecords == |records|
    ensures st.avgHealthScore == AverageHealth(machines)
    ensures |st.shownMachines| == if |machines| < 6 then |machines| else 6
    ensures |st.shownRecords| == if |records| < 5 then |records| else 5
    ensures forall i :: 0 <= i < |st.shownMachines| ==> st.shownMachines[i] == machines[i]
    ensures forall i :: 0 <= i < |st.shownRecords| ==> st.shownRecords[i] == records[i]
  {
    Stats(
      |Filter(machines, IsActive)|,
      |Filter(detections, IsCritical)|,
      |records|,
      AverageHealth(machines),
      Take(machines, 6),
      Take(records, 5))
  }

  /** The active count counts exactly the machines with status `active`:
      adding one machine adds one iff that machine is active. */
  lemma ActiveCountStep(machines: seq<Machine>, m: Machine)
    ensures DashboardStats(machines + [m], [], []).activeMachines
      == DashboardStats(machines, [], []).activeMachines + (if m.status == "active" then 1 else 0)
  {
    FilterConcat(machines, [m], IsActive);
    assert Filter([m], IsActive) == (if IsActive(m) then [m] else []) + Filter([m][1..], IsActive);
  }

  /** A detection at exactly 80 is not critical; anything above is. */
  lemma CriticalIsStrictlyAbove80(d: FaultDetection)
    ensures DashboardStats([], [d], []).criticalAlerts == (if d.severityScore > 80.0 then 1 else 0)
  {
    assert Filter([d], IsCritical) == (if IsCritical(d) then [d] else []) + Filter([d][1..], IsCritical);
  }

  /** With scores in 0..100 the average is in 0..100 too. */
  lemma AverageInRange(machines: seq<Machine>)
    requires forall i :: 0 <= i < |machines| ==> 0 <= machines[i].healthScore <= 100
    ensures 0 <= DashboardStats(machines, [], []).avgHealthScore <= 100
  {
    if machines != [] {
      AverageHealthWithin(machines, 0, 100);
    }
  }
}
