/** A boundary event node instance: an event listener attached to a host activity
    that, on every signal, either fires (hands the signal to the generic event
    handling) or cancels itself, depending on the state of its host. */
module BoundaryEventNodeInstance {
  import opened Wrappers
  import opened EventTypes
  import opened ProcessInstances

  /** An abstract point in time. */
  type Time = nat

  /** The exception that interrupts routing. */
  datatype Fault = NullType

  /** Resolves a variable name to a value when the signal is handled. */
  type VarResolver = string -> Value

  /** The boundary instance itself (`this`). */
  datatype BoundaryEvent = BoundaryEvent(
    id: string,                 // node instance id
    nodeUniqueId: string,       // unique id of the boundary node
    container: ContainerId,     // the container owning this instance
    eventType: string,          // the type its listener is registered for
    listener: ListenerToken,    // its registered listener
    attachedToNodeId: string,   // unique id of the host node
    triggerTime: Option<Time>,
    variables: map<string, Value>)

  /** What a signal did. `Fired` records the delegation to the generic event
      handling, whose own behaviour is outside this model. */
  datatype Outcome =
    | Fired(signalType: Option<string>, event: Value, varResolver: VarResolver)
    | Cancelled
    | Failed(fault: Fault)

  datatype SignalResult = SignalResult(outcome: Outcome, self: BoundaryEvent, process: ProcessInstance)

  /** This instance as its container holds it. */
  function AsNodeInstance(b: BoundaryEvent): NodeInstanceRef {
    NodeInstanceRef(b.id, b.nodeUniqueId, b.container)
  }

  // ---------------------------------------------------------------------------
  // Host correlation
  // ---------------------------------------------------------------------------

  /** A live instance of the host node that has finished entering. */
  predicate IsHostCandidate(n: NodeInstanceRef, attachedTo: string, activating: set<string>) {
    attachedTo == n.nodeUniqueId && n.nodeUniqueId !in activating
  }

  /** Timer signals carry the id of the host occurrence they were set for; any
      other signal correlates with every occurrence. */
  predicate Correlates(n: NodeInstanceRef, signalType: string, event: Value) {
    !IsTimer(signalType) || event == Text(n.id)
  }

  predicate HasHostCandidate(insts: seq<NodeInstanceRef>, attachedTo: string, activating: set<string>) {
    exists i | 0 <= i < |insts| :: IsHostCandidate(insts[i], attachedTo, activating)
  }

  /** The reference meaning of "the host is active" for a non-null signal type. */
  predicate HostActive(insts: seq<NodeInstanceRef>, attachedTo: string, activating: set<string>,
                       signalType: string, event: Value) {
    exists i | 0 <= i < |insts| ::
      IsHostCandidate(insts[i], attachedTo, activating) && Correlates(insts[i], signalType, event)
  }

  /** The loop of `isAttachedToNodeActive`: stops at the first host candidate that
      settles the answer; a candidate met with a null type dereferences null. */
  function ScanForHost(insts: seq<NodeInstanceRef>, attachedTo: string, activating: set<string>,
                       signalType: Option<string>, event: Value): (r: Result<bool, Fault>)
    ensures signalType.Some? ==> r == Success(HostActive(insts, attachedTo, activating, signalType.value, event))
    ensures signalType.None? ==>
      r == (if HasHostCandidate(insts, attachedTo, activating) then Failure(NullType) else Success(false))
    decreases |insts|
  {
    if |insts| == 0 then Success(false)
    else
      var n := insts[0];
      var rest := ScanForHost(insts[1..], attachedTo, activating, signalType, event);
      assert forall i | 1 <= i < |insts| :: insts[i] == insts[1..][i - 1];
      if IsHostCandidate(n, attachedTo, activating) then
        match signalType
        case None => Failure(NullType)
        case Some(t) =>
          if IsTimer(t) then
            if event == Text(n.id) then Success(true) else rest
          else Success(true)
      else rest
  }

  /** `isAttachedToNodeActive`: a null or empty collection never holds an active host. */
  function IsAttachedToNodeActive(nodeInstances: Option<seq<NodeInstanceRef>>, attachedTo: string,
                                  activating: set<string>, signalType: Option<string>, event: Value): (r: Result<bool, Fault>)
    ensures OrEmpty(nodeInstances) == [] ==> r == Success(false)
    ensures signalType.Some? ==>
      r == Success(HostActive(OrEmpty(nodeInstances), attachedTo, activating, signalType.value, event))
    ensures signalType.None? ==>
      r == (if HasHostCandidate(OrEmpty(nodeInstances), attachedTo, activating) then Failure(NullType) else Success(false))
  {
    if nodeInstances.Some? && |nodeInstances.value| > 0 then
      ScanForHost(nodeInstances.value, attachedTo, activating, signalType, event)
    else
      Success(false)
  }

  /** `isAttachedToNodeCompleted`. */
  function IsAttachedToNodeCompleted(pi: ProcessInstance, attachedTo: string): (r: bool)
    ensures r <==> attachedTo in pi.completedNodeIds
  {
    attachedTo in pi.completedNodeIds
  }

  // ---------------------------------------------------------------------------
  // Cancellation and signalling
  // ---------------------------------------------------------------------------

  /** `cancel(cancelType)`: deregisters this instance's listener and leaves its
      container. The cancel type plays no part. */
  function Cancel(self: BoundaryEvent, pi: ProcessInstance, cancelType: CancelType): (r: ProcessInstance)
    ensures forall t, k :: Registered(r.eventListeners, t, k) <==>
      Registered(pi.eventListeners, t, k) && !(t == self.eventType && k == self.listener)
    ensures r.eventListeners.Keys == pi.eventListeners.Keys
    ensures r.nodeInstances == RemoveFirst(pi.nodeInstances, AsNodeInstance(self))
    ensures multiset(r.nodeInstances) == multiset(pi.nodeInstances) - multiset{AsNodeInstance(self)}
    ensures AsNodeInstance(self) in pi.nodeInstances ==> |r.nodeInstances| == |pi.nodeInstances| - 1
    ensures r.activatingNodeIds == pi.activatingNodeIds
    ensures r.completedNodeIds == pi.completedNodeIds
    ensures Valid(pi) ==> Valid(r) && AsNodeInstance(self) !in r.nodeInstances
  {
    var unsubscribed := RemoveEventListener(pi, self.eventType, self.listener);
    RemoveNodeInstance(unsubscribed, AsNodeInstance(self))
  }

  /** The cancel type passed by the argument-free `cancel()`. */
  const DefaultCancelType: CancelType := Obsolete

  /** Records the first time a signal reached this instance. */
  function StampTriggerTime(self: BoundaryEvent, now: Time): (r: BoundaryEvent)
    ensures r.triggerTime.Some?
    ensures self.triggerTime.Some? ==> r.triggerTime == self.triggerTime
    ensures self.triggerTime.None? ==> r.triggerTime == Some(now)
    ensures r.(triggerTime := self.triggerTime) == self
  {
    if self.triggerTime.None? then self.(triggerTime := Some(now)) else self
  }

  /** Which way a signal goes, given the host's state. */
  datatype Decision = Fire | CancelSelf | Throw(fault: Fault)

  /** The branch taken by `signalEvent`. It depends on the boundary only through
      the host node it is attached to. */
  function Route(pi: ProcessInstance, attachedTo: string, signalType: Option<string>, event: Value): (d: Decision)
    ensures signalType.Some? ==> !d.Throw?
  {
    var active := IsAttachedToNodeActive(Some(pi.nodeInstances), attachedTo, pi.activatingNodeIds, signalType, event);
    if active.Failure? then Throw(active.error)
    else if signalType.Some? && IsCompensation(signalType.value) then
      if !active.value && IsAttachedToNodeCompleted(pi, attachedTo) then Fire else CancelSelf
    else
      if active.value then Fire else CancelSelf
  }

  /** `signalEvent(type, event, varResolver)`. */
  function Signal(self: BoundaryEvent, pi: ProcessInstance, signalType: Option<string>, event: Value,
                  varResolver: VarResolver, now: Time): (r: SignalResult)
    ensures r.self == StampTriggerTime(self, now)
    ensures r.outcome.Fired? <==> Route(pi, self.attachedToNodeId, signalType, event) == Fire
    ensures r.outcome.Cancelled? <==> Route(pi, self.attachedToNodeId, signalType, event) == CancelSelf
    ensures r.outcome.Cancelled? ==> r.process == Cancel(r.self, pi, DefaultCancelType)
    ensures !r.outcome.Cancelled? ==> r.process == pi
    ensures r.outcome.Fired? ==>
      r.outcome.signalType == signalType && r.outcome.event == event && r.outcome.varResolver == varResolver
    ensures signalType.Some? ==> !r.outcome.Failed?
  {
    var stamped := StampTriggerTime(self, now);
    match Route(pi, self.attachedToNodeId, signalType, event)
    case Fire => SignalResult(Fired(signalType, event, varResolver), stamped, pi)
    case CancelSelf => SignalResult(Cancelled, stamped, Cancel(stamped, pi, DefaultCancelType))
    case Throw(f) => SignalResult(Failed(f), stamped, pi)
  }

  /** The variable scope lookup `getVariable(name)`; an unset variable reads as null. */
  function GetVariable(self: BoundaryEvent, name: string): Value {
    if name in self.variables then self.variables[name] else NullValue
  }

  /** `signalEvent(type, event)`: the three-argument form with a resolver reading
      this instance's own variables. */
  function SignalOwnScope(self: BoundaryEvent, pi: ProcessInstance, signalType: Option<string>,
                          event: Value, now: Time): (r: SignalResult)
    ensures r.outcome.Fired? ==> r.outcome.signalType == signalType && r.outcome.event == event
    ensures r.outcome.Fired? ==> forall name :: r.outcome.varResolver(name) == GetVariable(self, name)
  {
    Signal(self, pi, signalType, event, name => GetVariable(self, name), now)
  }
}
