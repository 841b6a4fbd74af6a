# Boundary-event signal routing (jBPM flow engine)

This project models how a `BoundaryEventNodeInstance` of the jBPM workflow runtime
routes an incoming signal `(type, payload)`. A boundary event is a handler attached
to a host activity. For each signal it either **fires**, by delegating to the generic
event handling it inherits, or **cancels itself**, by deregistering its listener
from the process instance and leaving its container.

The decision reads three things about the host node (`attachedToNodeId`):

- whether a live, non-activating instance of the host exists, taken from the
  recursive collection of the process instance's node instances;
- for `Timer-` signals, whether that instance's id equals the payload;
- whether the host's unique id is in the process instance's completed-node set.

Compensation signals use the opposite polarity from every other signal. They fire
only when the host is not active and has completed.

Modules:

- `Wrappers` (`wrappers.dfy`): `Option` for Java references that may be null, and
  `Result` for computations that can throw.
- `EventTypes` (`event_types.dfy`): the timer and compensation prefixes and the
  prefix test (`String.startsWith`).
- `ProcessInstances` (`process_instances.dfy`): the process-instance state the
  boundary reads and changes. This covers the live node instances of all nested
  containers, the activating and completed node-id sets, and the listener registry.
  It also holds the two mutations the boundary performs: `removeEventListener`
  and `removeNodeInstance`.
- `BoundaryEventNodeInstance` (`boundary_event.dfy`): the boundary instance, the
  host-correlation scan, the branch decision `Route`, `cancel`, and both `signalEvent` overloads. A signal is a
  pure function that returns the outcome (`Fired`, `Cancelled`, or `Failed`), the
  updated boundary instance and the updated process instance.
- `BoundaryEventProperties` (`boundary_properties.dfy`): the routing properties,
  proved for all inputs.
- `BoundaryEventScenarios` (`scenarios.dfy`): concrete routing scenarios for a host
  node `Task1`.

A null signal type is modelled as `None`. The code tests `type != null` before the
compensation prefix, so a null type takes the ordinary branch. There,
`type.startsWith("Timer-")` dereferences null as soon as the scan meets a host
candidate. The model makes that exception an explicit `Failed(NullType)` outcome.
Neither the process state nor the listener changes on that path, but the trigger
time has already been stamped.

Two behaviours of the code worth noting:

- Timer correlation happens through the payload only. Each boundary scans the same
  process-wide collection and never compares a host occurrence with itself. Take
  two boundaries attached to two occurrences of one re-entrant host. A timer
  signal whose payload names either occurrence fires both boundaries
  (`DecisionIgnoresBoundaryIdentity`, `TimerCorrelatesByPayload`).
- The `cancel(CancelType)` override does not call the inherited cancellation. It
  only removes the listener and the container entry, and it ignores the cancel
  type.

## Model

| member | source | states |
|---|---|---|
| BoundaryEventNodeInstance.Signal | jbpm/jbpm-flow/src/main/java/org/jbpm/workflow/instance/node/BoundaryEventNodeInstance.java:38-62 | The trigger time is stamped on every path. The outcome follows `Route`, which depends only on the host. A cancel outcome leaves the process exactly as `cancel` does. The routing itself changes nothing before it delegates or throws; what the delegated handling then does is not modelled. Firing hands on the signal type, payload and resolver unchanged. A non-null type never fails. |
| BoundaryEventNodeInstance.IsAttachedToNodeCompleted | jbpm/jbpm-flow/src/main/java/org/jbpm/workflow/instance/node/BoundaryEventNodeInstance.java:89-92 | True if and only if `attachedTo` is in `completedNodeIds`. |
| BoundaryEventNodeInstance.Route | jbpm/jbpm-flow/src/main/java/org/jbpm/workflow/instance/node/BoundaryEventNodeInstance.java:48-61 | The branch decision. A non-null type never throws. Its polarity is stated by `CompensationPolarity`, `OrdinaryPolarity` and `NullTypeOutcome`. |
| BoundaryEventNodeInstance.SignalOwnScope | jbpm/jbpm-flow/src/main/java/org/jbpm/workflow/instance/node/BoundaryEventNodeInstance.java:64-67 | When the two-argument form fires, it hands on the caller's signal type and payload unchanged, and the resolver it hands on returns this instance's own variable for every name. |
| BoundaryEventProperties.OwnScopeMatchesThreeArgumentForm | jbpm/jbpm-flow/src/main/java/org/jbpm/workflow/instance/node/BoundaryEventNodeInstance.java:64-67 | The two-argument form takes the same branch as the three-argument form with any resolver, hands on the same signal type and payload when it fires, and produces the same boundary and process state. |
| BoundaryEventNodeInstance.ScanForHost | jbpm/jbpm-flow/src/main/java/org/jbpm/workflow/instance/node/BoundaryEventNodeInstance.java:71-84 | The early-exit loop answers exactly the existential `HostActive` for a non-null type: some instance of the host node that is not activating and, for timers, whose id equals the payload. For a null type it throws exactly when some non-activating host instance exists; otherwise it answers false. |
| BoundaryEventNodeInstance.IsAttachedToNodeActive | jbpm/jbpm-flow/src/main/java/org/jbpm/workflow/instance/node/BoundaryEventNodeInstance.java:69-87 | A null or empty collection gives false. Otherwise the result is the reference `HostActive` answer, or the null-type exception when a candidate exists. |
| BoundaryEventProperties.ActivatingHostNeverActive | jbpm/jbpm-flow/src/main/java/org/jbpm/workflow/instance/node/BoundaryEventNodeInstance.java:73-74 | A host whose unique id is in the activating set never counts as active, for any type, payload or collection. |
| BoundaryEventProperties.TimerCorrelation | jbpm/jbpm-flow/src/main/java/org/jbpm/workflow/instance/node/BoundaryEventNodeInstance.java:75-79 | For a `Timer-` type, the host is active if and only if some non-activating host instance has an id equal to the payload. |
| BoundaryEventProperties.PayloadIgnoredUnlessTimer | jbpm/jbpm-flow/src/main/java/org/jbpm/workflow/instance/node/BoundaryEventNodeInstance.java:80-82 | For any other type, the answer does not depend on the payload. It is exactly whether a non-activating host instance exists. |
| BoundaryEventProperties.CompensationPolarity | jbpm/jbpm-flow/src/main/java/org/jbpm/workflow/instance/node/BoundaryEventNodeInstance.java:48-54 | A compensation signal fires if and only if no non-activating host instance is live and the host's id is in the completed set. In every other case it cancels. |
| BoundaryEventProperties.OrdinaryPolarity | jbpm/jbpm-flow/src/main/java/org/jbpm/workflow/instance/node/BoundaryEventNodeInstance.java:55-61 | A non-null, non-compensation signal fires if and only if the host is active, and cancels otherwise. |
| BoundaryEventProperties.NullTypeOutcome | jbpm/jbpm-flow/src/main/java/org/jbpm/workflow/instance/node/BoundaryEventNodeInstance.java:48-76 | A null type throws if and only if a non-activating host instance exists, and cancels otherwise. |
| BoundaryEventProperties.ExactlyOneOutcome | jbpm/jbpm-flow/src/main/java/org/jbpm/workflow/instance/node/BoundaryEventNodeInstance.java:48-61 | Take a subscribed boundary in its container and a non-null signal. Exactly one of fire and cancel happens. The routing step keeps the boundary subscribed and contained if and only if it fires; what the delegated handling does afterwards is not modelled. |
| BoundaryEventNodeInstance.StampTriggerTime | jbpm/jbpm-flow/src/main/java/org/jbpm/workflow/instance/node/BoundaryEventNodeInstance.java:41-43 | The trigger time is always set afterwards. An existing value is kept. Only a missing value becomes `now`. No other field changes. |
| BoundaryEventProperties.TriggerTimeSetOnce | jbpm/jbpm-flow/src/main/java/org/jbpm/workflow/instance/node/BoundaryEventNodeInstance.java:41-43 | Whatever the outcome, signalling sets the trigger time only when it was missing and changes nothing else on the boundary. |
| BoundaryEventNodeInstance.Cancel | jbpm/jbpm-flow/src/main/java/org/jbpm/workflow/instance/node/BoundaryEventNodeInstance.java:94-98 | Exactly the `(eventType, listener)` registration is removed; keeping the registry's keys (an emptied type stays with an empty set) is a choice of this model. The container loses the first occurrence of this instance, the others keep their order, and the multiset loses exactly this instance. The activating and completed sets do not change. Distinctness is preserved, and this instance is no longer live afterwards. |
| BoundaryEventProperties.CancelIgnoresCancelType | jbpm/jbpm-flow/src/main/java/org/jbpm/workflow/instance/node/BoundaryEventNodeInstance.java:95 | Every cancel type gives the same result. |
| BoundaryEventProperties.CancelTearsDownOnce | jbpm/jbpm-flow/src/main/java/org/jbpm/workflow/instance/node/BoundaryEventNodeInstance.java:96-97 | Cancelling a contained boundary removes exactly one node instance and its listener. Cancelling again changes nothing. |
| BoundaryEventProperties.SignalPreservesValid | jbpm/jbpm-flow/src/main/java/org/jbpm/workflow/instance/node/BoundaryEventNodeInstance.java:38-62 | Signalling never makes a node instance appear twice in the process's containers. |
| BoundaryEventProperties.ResolverDoesNotSteerDecision | jbpm/jbpm-flow/src/main/java/org/jbpm/workflow/instance/node/BoundaryEventNodeInstance.java:39-61 | The resolver is only passed on. Two resolvers give the same branch, boundary and process state. |
| BoundaryEventProperties.DecisionIgnoresBoundaryIdentity | jbpm/jbpm-flow/src/main/java/org/jbpm/workflow/instance/node/BoundaryEventNodeInstance.java:46-61 | Two boundaries attached to the same host take the same branch for the same signal. |
| ProcessInstances.RemoveEventListener | jbpm/jbpm-flow/src/main/java/org/jbpm/workflow/instance/node/BoundaryEventNodeInstance.java:96 | Every registration other than the named `(type, token)` survives, the named one is gone, and nothing outside the registry changes. Keeping the registry's keys is a choice of this model. |
| ProcessInstances.RemoveNodeInstance | jbpm/jbpm-flow/src/main/java/org/jbpm/workflow/instance/node/BoundaryEventNodeInstance.java:97 | The node-instance multiset loses exactly one copy of the instance, and nothing else changes. Distinctness is preserved, and the instance is gone afterwards. |
| ProcessInstances.RemoveFirst | jbpm/jbpm-flow/src/main/java/org/jbpm/workflow/instance/node/BoundaryEventNodeInstance.java:97 | Removing from a container drops exactly the first occurrence and keeps the others in order; the multiset loses one copy. An absent instance leaves the sequence unchanged. |
| ProcessInstances.FirstIndex | jbpm/jbpm-flow/src/main/java/org/jbpm/workflow/instance/node/BoundaryEventNodeInstance.java:97 | The instance removed from a container is its first occurrence: the index holds it and no earlier position does. |
| EventTypes.CompensationIsNeverTimer | jbpm/jbpm-flow/src/main/java/org/jbpm/workflow/instance/node/BoundaryEventNodeInstance.java:76 | No type is both a compensation and a timer type, so the compensation branch never correlates by payload. |
| BoundaryEventScenarios.ErrorOnActiveHostFires | jbpm/jbpm-flow/src/main/java/org/jbpm/workflow/instance/node/BoundaryEventNodeInstance.java:56-57 | An error signal while `Task1` runs fires the boundary. The routing itself changes nothing before delegating; what the delegated handling does is not modelled. |
| BoundaryEventScenarios.ErrorOnCompletedHostCancels | jbpm/jbpm-flow/src/main/java/org/jbpm/workflow/instance/node/BoundaryEventNodeInstance.java:58-59 | An error signal after `Task1` completed cancels the boundary. Its own listener token and container entry are removed, and other listeners stay. |
| BoundaryEventScenarios.CompensationOnCompletedHostFires | jbpm/jbpm-flow/src/main/java/org/jbpm/workflow/instance/node/BoundaryEventNodeInstance.java:50-51 | A compensation signal after `Task1` completed fires the boundary. |
| BoundaryEventScenarios.CompensationOnRunningHostCancels | jbpm/jbpm-flow/src/main/java/org/jbpm/workflow/instance/node/BoundaryEventNodeInstance.java:52-53 | A compensation signal while `Task1` runs cancels the boundary. |
| BoundaryEventScenarios.ErrorOnActivatingHostCancels | jbpm/jbpm-flow/src/main/java/org/jbpm/workflow/instance/node/BoundaryEventNodeInstance.java:73-74 | An error signal while `Task1` is still activating cancels the boundary. |
| BoundaryEventScenarios.TimerCorrelatesByPayload | jbpm/jbpm-flow/src/main/java/org/jbpm/workflow/instance/node/BoundaryEventNodeInstance.java:76-79 | Take host occurrences 7 and 8. A timer payload of 7 fires the boundaries of both. A payload naming no live occurrence cancels both. |

## Left out

- BoundaryEventNodeInstance.Signal, BoundaryEventProperties.ExactlyOneOutcome and BoundaryEventScenarios.ErrorOnActiveHostFires describe the routing step only: on the firing branch the process state they report is the state handed to the delegated handling, not the state after it.
- The inherited `super.signalEvent` (EventNodeInstance is not part of this model): firing is the outcome `Fired`, which records the delegated type, payload and resolver, not what the generic handling then does.
- Logging and the `Date` value: the current time is a parameter `now`.
- The value of `Metadata.EVENT_TYPE_COMPENSATION` is defined in `org.jbpm.ruleflow.core.Metadata`, outside this model. The model uses jBPM's `"Compensation"`. The general lemmas rely only on the fact that it does not start with `"Timer-"`; the scenarios use the value itself.
- The registry keeps an event type's key after its last listener is removed. WorkflowProcessInstanceImpl, which may drop emptied keys, is not part of this model, so the model promises nothing about key removal beyond the `Registered` view.
- The third argument (`true`) of `removeEventListener` is not modelled. WorkflowProcessInstanceImpl, which gives it meaning, is not part of this model. The registry is one map from event type to listener tokens.
- Container removal follows `List.remove` (the first occurrence, compared by identity). The containers' own `removeNodeInstance` is not part of this model.
- `getVariable` reads this instance's own variable map. Resolution through enclosing variable scopes is not modelled.
- The argument-free `cancel()` comes from NodeInstanceImpl, which is not part of this model. The model passes `Obsolete`, and `CancelIgnoresCancelType` shows the choice does not matter.
- Each candidate's activating set is read from the process instance that owns the recursive collection. The code reads it through each candidate's own `getProcessInstance()`, and these are the same object for a collection taken from one process instance.
- Null `attachedToNodeId`, null node ids and null `getNode()` results are not modelled, so the exceptions they would raise are not modelled either. All of them are plain strings here.
- Concurrency: the engine serialises signals per process instance, and one signal is one pure state transition.
- KogitoThreadPoolFactory, ObjectType and FieldTemplateImpl: they are thread-pool plumbing, a bare interface, and a getter holder around a foreign call. None of them is part of the routing logic.
