/** Properties of boundary-event signal routing: the polarity of compensation
    versus ordinary signals, host correlation, and the effects of each outcome. */
module BoundaryEventProperties {
  import opened Wrappers
  import opened EventTypes
  import opened ProcessInstances
  import opened BoundaryEventNodeInstance

  /** A compensation signal fires the boundary exactly when no host occurrence is
      active and the host node has completed; in every other case it cancels. */
  lemma CompensationPolarity(self: BoundaryEvent, pi: ProcessInstance, t: string, event: Value,
                             varResolver: VarResolver, now: Time)
    requires IsCompensation(t)
    ensures var r := Signal(self, pi, Some(t), event, varResolver, now);
      && (r.outcome.Fired? <==>
            !HasHostCandidate(pi.nodeInstances, self.attachedToNodeId, pi.activatingNodeIds)
            && self.attachedToNodeId in pi.completedNodeIds)
      && (r.outcome.Cancelled? <==> !r.outcome.Fired?)
  {
    CompensationIsNeverTimer(t);
    PayloadIgnoredUnlessTimer(Some(pi.nodeInstances), self.attachedToNodeId, pi.activatingNodeIds, t, event, event);
  }

  /** Any other non-null signal fires the boundary exactly when its host is
      active, and cancels it otherwise. */
  lemma OrdinaryPolarity(self: BoundaryEvent, pi: ProcessInstance, t: string, event: Value,
                         varResolver: VarResolver, now: Time)
    requires !IsCompensation(t)
    ensures var r := Signal(self, pi, Some(t), event, varResolver, now);
      && (r.outcome.Fired? <==> HostActive(pi.nodeInstances, self.attachedToNodeId, pi.activatingNodeIds, t, event))
      && (r.outcome.Cancelled? <==> !r.outcome.Fired?)
  {
  }

  /** A null signal type throws as soon as the scan meets a host candidate; with
      no candidate the boundary cancels. */
  lemma NullTypeOutcome(self: BoundaryEvent, pi: ProcessInstance, event: Value,
                        varResolver: VarResolver, now: Time)
    ensures var r := Signal(self, pi, None, event, varResolver, now);
      && (r.outcome == Failed(NullType) <==> HasHostCandidate(pi.nodeInstances, self.attachedToNodeId, pi.activatingNodeIds))
      && (r.outcome.Cancelled? <==> !r.outcome.Failed?)
  {
  }

  /** Each non-null signal takes exactly one branch on a subscribed, contained
      boundary: the routing step leaves it subscribed and in its container when
      it fires (what the delegated handling then does is not modelled), and
      cancelling removes both. */
  lemma ExactlyOneOutcome(self: BoundaryEvent, pi: ProcessInstance, t: string, event: Value,
                          varResolver: VarResolver, now: Time)
    requires Valid(pi)
    requires AsNodeInstance(self) in pi.nodeInstances
    requires Registered(pi.eventListeners, self.eventType, self.listener)
    ensures var r := Signal(self, pi, Some(t), event, varResolver, now);
      && (r.outcome.Fired? != r.outcome.Cancelled?)
      && (r.outcome.Fired? <==> Registered(r.process.eventListeners, self.eventType, self.listener))
      && (r.outcome.Fired? <==> AsNodeInstance(self) in r.process.nodeInstances)
  {
  }

  /** A host whose unique id is still activating never counts as active, whatever
      the signal type and payload. */
  lemma ActivatingHostNeverActive(nodeInstances: Option<seq<NodeInstanceRef>>, attachedTo: string,
                                  activating: set<string>, signalType: Option<string>, event: Value)
    requires attachedTo in activating
    ensures IsAttachedToNodeActive(nodeInstances, attachedTo, activating, signalType, event) == Success(false)
  {
  }

  /** Timer signals are correlated by payload: the host counts as active only for
      a payload naming one of its non-activating occurrences. */
  lemma TimerCorrelation(nodeInstances: Option<seq<NodeInstanceRef>>, attachedTo: string,
                         activating: set<string>, t: string, event: Value)
    requires IsTimer(t)
    ensures IsAttachedToNodeActive(nodeInstances, attachedTo, activating, Some(t), event) == Success(true)
      <==> exists n | n in OrEmpty(nodeInstances) :: IsHostCandidate(n, attachedTo, activating) && event == Text(n.id)
  {
  }

  /** For every non-timer type the payload is ignored: any non-activating host
      occurrence is enough. */
  lemma PayloadIgnoredUnlessTimer(nodeInstances: Option<seq<NodeInstanceRef>>, attachedTo: string,
                                  activating: set<string>, t: string, e1: Value, e2: Value)
    requires !IsTimer(t)
    ensures IsAttachedToNodeActive(nodeInstances, attachedTo, activating, Some(t), e1)
         == IsAttachedToNodeActive(nodeInstances, attachedTo, activating, Some(t), e2)
         == Success(HasHostCandidate(OrEmpty(nodeInstances), attachedTo, activating))
  {
  }

  /** The first signal stamps the trigger time; later ones never overwrite it,
      whichever outcome follows. */
  lemma TriggerTimeSetOnce(self: BoundaryEvent, pi: ProcessInstance, signalType: Option<string>, event: Value,
                           varResolver: VarResolver, now: Time)
    ensures var r := Signal(self, pi, signalType, event, varResolver, now);
      && r.self.triggerTime == (if self.triggerTime.Some? then self.triggerTime else Some(now))
      && r.self.(triggerTime := self.triggerTime) == self
  {
  }

  /** `cancel` ignores its cancel type. */
  lemma CancelIgnoresCancelType(self: BoundaryEvent, pi: ProcessInstance, c1: CancelType, c2: CancelType)
    ensures Cancel(self, pi, c1) == Cancel(self, pi, c2)
  {
  }

  /** Cancelling tears the boundary down exactly once: the first cancel removes
      one node instance and the listener, a repeated cancel changes nothing. */
  lemma CancelTearsDownOnce(self: BoundaryEvent, pi: ProcessInstance, c: CancelType)
    requires Valid(pi)
    requires AsNodeInstance(self) in pi.nodeInstances
    ensures |Cancel(self, pi, c).nodeInstances| == |pi.nodeInstances| - 1
    ensures !Registered(Cancel(self, pi, c).eventListeners, self.eventType, self.listener)
    ensures Cancel(self, Cancel(self, pi, c), c) == Cancel(self, pi, c)
  {
    var once := Cancel(self, pi, c);
    assert Valid(once) && AsNodeInstance(self) !in once.nodeInstances;
    var unsubscribed := RemoveEventListener(once, self.eventType, self.listener);
    assert unsubscribed.eventListeners == once.eventListeners by {
      if self.eventType in once.eventListeners {
        assert once.eventListeners[self.eventType] - {self.listener} == once.eventListeners[self.eventType];
      }
    }
    assert RemoveFirst(unsubscribed.nodeInstances, AsNodeInstance(self)) == once.nodeInstances;
  }

  /** Signalling keeps every container free of duplicate node instances. */
  lemma SignalPreservesValid(self: BoundaryEvent, pi: ProcessInstance, signalType: Option<string>, event: Value,
                             varResolver: VarResolver, now: Time)
    requires Valid(pi)
    ensures Valid(Signal(self, pi, signalType, event, varResolver, now).process)
  {
  }

  /** The resolver is only handed on: it never steers the decision or the state. */
  lemma ResolverDoesNotSteerDecision(self: BoundaryEvent, pi: ProcessInstance, signalType: Option<string>,
                                     event: Value, f: VarResolver, g: VarResolver, now: Time)
    ensures var rf := Signal(self, pi, signalType, event, f, now);
            var rg := Signal(self, pi, signalType, event, g, now);
      && rf.outcome.Fired? == rg.outcome.Fired?
      && rf.outcome.Cancelled? == rg.outcome.Cancelled?
      && rf.self == rg.self
      && rf.process == rg.process
  {
  }

  /** The two-argument `signalEvent` decides and acts exactly as the three-argument
      form does with any resolver, and hands on a resolver reading this instance's
      own variables. */
  lemma OwnScopeMatchesThreeArgumentForm(self: BoundaryEvent, pi: ProcessInstance, signalType: Option<string>,
                                         event: Value, f: VarResolver, now: Time)
    ensures var r2 := SignalOwnScope(self, pi, signalType, event, now);
            var r3 := Signal(self, pi, signalType, event, f, now);
      && r2.outcome.Fired? == r3.outcome.Fired?
      && r2.outcome.Cancelled? == r3.outcome.Cancelled?
      && (r2.outcome.Fired? ==> r2.outcome.signalType == r3.outcome.signalType && r2.outcome.event == r3.outcome.event)
      && r2.outcome.Failed? == r3.outcome.Failed?
      && r2.self == r3.self
      && r2.process == r3.process
  {
  }

  /** The decision depends on the boundary only through its host: two boundary
      instances attached to the same host node, given the same signal, take the
      same branch. */
  lemma DecisionIgnoresBoundaryIdentity(b1: BoundaryEvent, b2: BoundaryEvent, pi: ProcessInstance,
                                        signalType: Option<string>, event: Value, f: VarResolver, now: Time)
    requires b1.attachedToNodeId == b2.attachedToNodeId
    ensures var r1 := Signal(b1, pi, signalType, event, f, now);
            var r2 := Signal(b2, pi, signalType, event, f, now);
      && r1.outcome.Fired? == r2.outcome.Fired?
      && r1.outcome.Cancelled? == r2.outcome.Cancelled?
  {
  }
}
