/** What the node reflector sees and writes: Nomad's node stubs and the NomadNode objects. */
module NodeTypes {

  import opened Api

  datatype Health = Initializing | Up | Down | Disconnected

  datatype Eligibility = Eligible | Ineligible | OtherEligibility(text: string)

  datatype DrainResult = Draining | Complete | Canceled

  datatype LastDrain = LastDrain(result: DrainResult, startedAt: int, updatedAt: int)

  // Node class, node pool and datacenter: mirrored, never interpreted.
  datatype Facts = Facts(nodeClass: string, nodePool: string, datacenter: string)

  // One entry of Nomad's node list.
  datatype Stub = Stub(
    id: string, name: string, health: Health, createIndex: nat,
    drain: bool, eligibility: Eligibility, lastDrain: Option<LastDrain>, facts: Facts)

  // The drain Nomad runs, and the drain a NomadNode asks for (no deadline means the default).
  datatype Strategy = Strategy(deadline: int, ignoreSystemJobs: bool)
  datatype DrainSpec = DrainSpec(deadline: Option<int>, ignoreSystemJobs: bool)

  datatype Reason =
    | Reflected | ClusterNotReady | DuplicateNodeName | DrainSpecEdited | DrainSpecInSync

  // A condition's status and reason. Its transition time is the subject of module Conditions.
  datatype Condition = Condition(holds: bool, reason: Reason)

  datatype Mirror = Mirror(
    id: string, health: Health, eligibility: Eligibility, draining: bool, facts: Facts,
    observedGeneration: nat)

  datatype Status = Status(
    mirror: Option<Mirror>, lastDrain: Option<LastDrain>, drainObservedGeneration: nat,
    reconciled: Option<Condition>, drainPendingRestart: Option<Condition>)

  const EMPTY_STATUS := Status(None, None, 0, None, None)

  // A NomadNode: labelled says whether it carries the cluster's label set.
  datatype Node = Node(
    cluster: string, labelled: bool, nodeName: string,
    eligible: bool, drain: Option<DrainSpec>, generation: nat, status: Status)

  // The NomadNodes of one namespace, by object name.
  type Store = map<string, Node>

  /* ----------------------------------- Calls ----------------------------------- */

  // Nomad's answer to a node query.
  datatype InfoReply = InfoError | NoStrategy | Running(strategy: Strategy)

  datatype Effect =
    | ReadInfo(id: string)
    | UpdateDrain(id: string, spec: Option<Strategy>, markEligible: bool, applied: bool)
    | SetEligibility(id: string, eligible: bool, applied: bool)
    | CreateNode(obj: string, nodeName: string)
    | DeleteNode(obj: string, nodeName: string)

  predicate IsNomadWrite(e: Effect) {
    e.UpdateDrain? || e.SetEligibility?
  }
}
