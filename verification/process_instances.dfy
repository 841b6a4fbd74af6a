/** The collaborators a boundary event instance reads and mutates: the process
    instance's live node instances (across nested containers), its activating and
    completed node-id sets, and its event-listener registry. */
module ProcessInstances {

  /** An opaque runtime value: a signal payload or a process variable. */
  datatype Value = NullValue | Text(s: string) | Opaque(token: nat)

  /** Identifies a node-instance container: the process instance or a nested scope. */
  type ContainerId = nat

  /** A registered event-listener callback, compared by identity. */
  type ListenerToken = nat

  /** One live node instance: its instance id (`getId()`), the unique id of its
      node definition (`getNode().getUniqueId()`), and the container owning it. */
  datatype NodeInstanceRef = NodeInstanceRef(id: string, nodeUniqueId: string, container: ContainerId)

  /** The state of a running process instance as the routing logic sees it.
      `nodeInstances` is the recursive view (`getNodeInstances(true)`): every live
      node instance of the process, whichever container owns it. */
  datatype ProcessInstance = ProcessInstance(
    nodeInstances: seq<NodeInstanceRef>,
    activatingNodeIds: set<string>,
    completedNodeIds: set<string>,
    eventListeners: map<string, set<ListenerToken>>)

  /** The reason passed to `cancel`. */
  datatype CancelType = Aborted | Skipped | Obsolete | Error

  /** No node instance is owned twice. */
  ghost predicate Distinct(s: seq<NodeInstanceRef>) {
    forall n :: multiset(s)[n] <= 1
  }

  ghost predicate Valid(pi: ProcessInstance) {
    Distinct(pi.nodeInstances)
  }

  /** Whether `token` listens for `eventType` in the registry. */
  predicate Registered(listeners: map<string, set<ListenerToken>>, eventType: string, token: ListenerToken) {
    eventType in listeners && token in listeners[eventType]
  }

  /** The position of the first occurrence of `n`. */
  function FirstIndex(s: seq<NodeInstanceRef>, n: NodeInstanceRef): (i: nat)
    requires n in s
    ensures i < |s| && s[i] == n && n !in s[..i]
    decreases |s|
  {
    if s[0] == n then 0
    else
      var j := FirstIndex(s[1..], n);
      assert s[..j + 1] == [s[0]] + s[1..][..j];
      j + 1
  }

  /** A container's `removeNodeInstance`: removes the first occurrence of `n`,
      keeping the order of the others; removing an absent instance changes nothing. */
  function RemoveFirst(s: seq<NodeInstanceRef>, n: NodeInstanceRef): (r: seq<NodeInstanceRef>)
    ensures n in s ==> r == s[..FirstIndex(s, n)] + s[FirstIndex(s, n) + 1..]
    ensures n !in s ==> r == s
    ensures multiset(r) == multiset(s) - multiset{n}
    ensures n in s ==> |r| == |s| - 1
    ensures Distinct(s) ==> Distinct(r) && n !in r
  {
    if n in s then
      var i := FirstIndex(s, n);
      assert s == s[..i] + [n] + s[i + 1..];
      s[..i] + s[i + 1..]
    else
      s
  }

  /** Removes `n` from the container that owns it; nothing else changes. */
  function RemoveNodeInstance(pi: ProcessInstance, n: NodeInstanceRef): (r: ProcessInstance)
    ensures multiset(r.nodeInstances) == multiset(pi.nodeInstances) - multiset{n}
    ensures r.activatingNodeIds == pi.activatingNodeIds
    ensures r.completedNodeIds == pi.completedNodeIds
    ensures r.eventListeners == pi.eventListeners
    ensures Valid(pi) ==> Valid(r) && n !in r.nodeInstances
  {
    pi.(nodeInstances := RemoveFirst(pi.nodeInstances, n))
  }

  /** Deregisters `token` for `eventType`; every other registration survives and
      the registry keeps its keys. */
  function RemoveEventListener(pi: ProcessInstance, eventType: string, token: ListenerToken): (r: ProcessInstance)
    ensures forall t, k :: Registered(r.eventListeners, t, k) <==>
      Registered(pi.eventListeners, t, k) && !(t == eventType && k == token)
    ensures r.eventListeners.Keys == pi.eventListeners.Keys
    ensures r.nodeInstances == pi.nodeInstances
    ensures r.activatingNodeIds == pi.activatingNodeIds
    ensures r.completedNodeIds == pi.completedNodeIds
  {
    if eventType in pi.eventListeners then
      pi.(eventListeners := pi.eventListeners[eventType := pi.eventListeners[eventType] - {token}])
    else
      pi
  }
}
