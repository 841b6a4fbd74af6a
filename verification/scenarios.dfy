/** Concrete routing scenarios for a boundary attached to host node "Task1". */
module BoundaryEventScenarios {
  import opened Wrappers
  import opened EventTypes
  import opened ProcessInstances
  import opened BoundaryEventNodeInstance

  const Host: string := "Task1"

  function Boundary(id: string, eventType: string, listener: ListenerToken): BoundaryEvent {
    BoundaryEvent(id, "Boundary1", 0, eventType, listener, Host, None, map[])
  }

  function HostOccurrence(id: string): NodeInstanceRef {
    NodeInstanceRef(id, Host, 0)
  }

  function NoVariables(): VarResolver {
    name => NullValue
  }

  /** An error boundary on a running host fires; the routing step leaves the
      process it hands to the delegated handling unchanged. */
  lemma ErrorOnActiveHostFires(now: Time)
    ensures var b := Boundary("b", "Error-1", 1);
            var pi := ProcessInstance([HostOccurrence("1"), AsNodeInstance(b)], {}, {}, map["Error-1" := {1}]);
            var r := Signal(b, pi, Some("Error-1"), NullValue, NoVariables(), now);
      r.outcome.Fired? && r.process == pi
  {
    var b := Boundary("b", "Error-1", 1);
    var pi := ProcessInstance([HostOccurrence("1"), AsNodeInstance(b)], {}, {}, map["Error-1" := {1}]);
    assert "Error-1"[..|TimerPrefix|][0] == 'E';
    assert !IsCompensation("Error-1") && !IsTimer("Error-1");
    assert IsHostCandidate(pi.nodeInstances[0], Host, {}) && Correlates(pi.nodeInstances[0], "Error-1", NullValue);
  }

  /** An error boundary whose host already completed is cancelled: its listener
      and its container entry are gone afterwards. */
  lemma ErrorOnCompletedHostCancels(now: Time)
    ensures var b := Boundary("b", "Error-1", 1);
            var pi := ProcessInstance([AsNodeInstance(b)], {}, {Host}, map["Error-1" := {1, 2}]);
            var r := Signal(b, pi, Some("Error-1"), NullValue, NoVariables(), now);
      && r.outcome.Cancelled?
      && r.process.nodeInstances == []
      && r.process.eventListeners == map["Error-1" := {2}]
  {
    var b := Boundary("b", "Error-1", 1);
    var pi := ProcessInstance([AsNodeInstance(b)], {}, {Host}, map["Error-1" := {1, 2}]);
    assert !IsCompensation("Error-1");
    assert {1, 2} - {1} == {2};
  }

  /** A compensation boundary whose host completed and is no longer running fires. */
  lemma CompensationOnCompletedHostFires(now: Time)
    ensures var b := Boundary("b", "Compensation-Task1", 1);
            var pi := ProcessInstance([AsNodeInstance(b)], {}, {Host}, map["Compensation-Task1" := {1}]);
            var r := Signal(b, pi, Some("Compensation-Task1"), NullValue, NoVariables(), now);
      r.outcome.Fired?
  {
  }

  /** A compensation boundary whose host is still running is cancelled. */
  lemma CompensationOnRunningHostCancels(now: Time)
    ensures var b := Boundary("b", "Compensation-Task1", 1);
            var pi := ProcessInstance([HostOccurrence("1"), AsNodeInstance(b)], {}, {}, map["Compensation-Task1" := {1}]);
            var r := Signal(b, pi, Some("Compensation-Task1"), NullValue, NoVariables(), now);
      r.outcome.Cancelled?
  {
  }

  /** A host that is still activating does not count as running. */
  lemma ErrorOnActivatingHostCancels(now: Time)
    ensures var b := Boundary("b", "Error-1", 1);
            var pi := ProcessInstance([HostOccurrence("1"), AsNodeInstance(b)], {Host}, {}, map["Error-1" := {1}]);
            var r := Signal(b, pi, Some("Error-1"), NullValue, NoVariables(), now);
      r.outcome.Cancelled?
  {
  }

  /** Two occurrences "7" and "8" of a re-entrant host, each with its own timer
      boundary. The routing decision looks only at the payload and the host node:
      a timer signal for occurrence "7" fires either boundary it reaches, and one
      naming no live occurrence cancels either. */
  lemma TimerCorrelatesByPayload(now: Time)
    ensures var b7 := Boundary("b7", "Timer-99", 7);
            var b8 := Boundary("b8", "Timer-99", 8);
            var pi := ProcessInstance([HostOccurrence("7"), HostOccurrence("8"), AsNodeInstance(b7), AsNodeInstance(b8)],
                              {}, {}, map["Timer-99" := {7, 8}]);
      && Signal(b7, pi, Some("Timer-99"), Text("7"), NoVariables(), now).outcome.Fired?
      && Signal(b8, pi, Some("Timer-99"), Text("7"), NoVariables(), now).outcome.Fired?
      && Signal(b7, pi, Some("Timer-99"), Text("9"), NoVariables(), now).outcome.Cancelled?
      && Signal(b8, pi, Some("Timer-99"), Text("9"), NoVariables(), now).outcome.Cancelled?
  {
  }
}
