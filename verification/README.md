# Verified model of the Nomad operator's controllers

A Dafny model of the four stateful parts of the operator, with proofs about every step, every run
and every map order.

- **Node reflector** (`Binding`, `Sanitizer`, `SanitizerExact`, `Upsert`, `Reflect`, `NodePass`, `NodeReflector`, and
  the results in `NodeCalls`, `NodeReflection`, `NodeExact`, `NodeMirrors`, `NodeRuns`, `NodeMarks`, `DrainRuns`). One pass binds the listed
  Nomad nodes to names, resolves collisions of sanitized names, mints, adopts or re-adopts NomadNode
  objects in whatever order Go iterates a map, drives drains and eligibility, marks ambiguous names
  and prunes. `KeyedLoop` is the theory of such loops: each step reads and writes one keyed slot.
- **Cluster phase machine** (`ClusterPhase`, `ClusterOutcome`, `DriftExact`, `AclBootstrap`, `Conditions`). The status a pass
  persists, the drift events it emits, the crash-tolerant ACL bootstrap, and the condition list.
- **Finalizer protocol** (`PoolProtocol`, `PoolSafety`, `PoolOrphans`, `PoolCascade`, `PoolInstances`,
  `PoolPass`, `PoolSiblings`, `PoolProgram`).
  NomadPool as the representative: a machine over single API calls in which passes over different
  resources interleave with users, clusters that go and come back with or without their data,
  out-of-band changes and crashes.
- **RPC path** (`Decimal`, `RpcPath`, `Gateway`). Ports printed by the operator and picked again by
  the init container's shell script; listeners, routes and services from a port to a pod.

Code that changes things step by step is a class or a method with loops, proved equal to a
specification function or to steps of a machine; the results about runs are lemmas about those, and
for each function lemmas say what it yields in the fields of its input.
Every call to the Kubernetes API server or to Nomad may be refused, or take effect with its reply
lost. Map and list iteration is an arbitrary order, which the methods return as a ghost sequence.

`dafny verify dfyconfig.toml` checks everything.

## Assumptions

- Reads are linearizable, and a write to one object is atomic and checked against the version read.
- Every NomadNode is named by the sanitized name of its `nodeName`. The reflector creates them that
  way and the node name is immutable; `NodeRuns` proves that passes keep it, and it is a hypothesis
  for what other clients create, between passes or during one.
- Nomad names, addresses and stubs are arbitrary. A resolved external address is not empty, which is
  what `Gateway.EnsureExistingGateway` proves of an Existing gateway.
- Nobody but the operator bootstraps Nomad's ACL system, and the token Secret is never deleted.
- Finalizers are removed by the operator only. Pool names match the pattern of the API type, so they
  contain no slash.

## Where the code and its description differ

- The first sentence of the comment on `bindNodes` speaks of a tie-break among live stubs. The code
  refuses a name with two live stubs; `Binding.DupesMeaning` states what it does.
- `markDuplicates` depends on map order when two ambiguous names share an object name that is not
  taken. `NodeMarks.MarksConfluentIff` gives the exact condition, `NodeMarks.MarksOrderMatters` an
  instance.
- A drain is remembered as handled only by a status write, so a lost write makes it start again; the
  bound in `DrainRuns.DrainIssuanceBound` counts those, and the calls Nomad refuses.
- `upsertNode` never looks at the cluster reference of an object it finds.
  `NodeExact.OwnNamesExact` says exactly when the cluster ends up without an object of its own for a
  listed node.
- A pool is taken to go away with its cluster, yet the cluster's data is retained. When the cluster
  is created again on it, a pool whose last finalizer was dropped meanwhile is an orphan:
  `PoolOrphans.RecreatedOrphan` gives the exact condition, `PoolInstances.RetainedDataOrphans` a run.
- A registration that Nomad applies only after the operator gave up waiting can outlive its
  resource: `PoolOrphans.LandingExact` gives the exact condition,
  `PoolInstances.LateRegistrationOrphans` a run. `PoolOrphans.LostExactly` shows that there is no third
  way to lose a pool.
- `finalizePool` has no guard for built-in pools. That none is ever registered holds without it; that
  none is deleted holds as long as no resource names one (`PoolInstances.NoBuiltinDeleted`), which
  admission has to see to (`PoolInstances.BuiltinCanBeDeleted`).
- Drift events are exact as long as the mid-pass writes land; `DriftExact.DriftEventsExactIff` says for
  which sequences of failed writes they still are.

## Model

| member | source | states |
|---|---|---|
| Sanitizer.SanitizeLabel | internal/controller/nomadnode_names.go:33-53 | The builder loop, the collapse loop, truncation and trimming compute the label of any input; the collapse loop terminates. |
| Sanitizer.SanitizeNodeName | internal/controller/nomadnode_names.go:12-27 | Split, sanitize each label, drop empty ones, join, cap at 253 and trim: the object name of any node name. |
| Sanitizer.ReplaceShrinks | internal/controller/nomadnode_names.go:45-47 | One replacement round shortens the string exactly when it holds a double dash, so the loop ends. |
| Sanitizer.ReplaceRun | internal/controller/nomadnode_names.go:45-47 | One round turns a run of n dashes into ceil(n/2). |
| Sanitizer.CollapseReplace | internal/controller/nomadnode_names.go:43-47 | The repeated replacement has the same result as collapsing every maximal run to one dash. |
| Sanitizer.LabelValid | internal/controller/nomadnode_names.go:33-53 | A label is empty, or at most 63 characters, alphanumeric at both ends, without a double dash. |
| Sanitizer.CutJoin | internal/controller/nomadnode_names.go:23-25 | Cutting joined labels anywhere and trimming the exposed separators leaves joined valid labels. |
| Sanitizer.SplitJoin | internal/controller/nomadnode_names.go:13-22 | Splitting at dots undoes joining with dots. |
| Sanitizer.ObjectNameValid | internal/controller/nomadnode_names.go:8-27 | For every input the object name is a valid RFC 1123 subdomain of at most 253 characters, without a double dash. |
| Sanitizer.ObjectNameFixed | internal/controller/nomadnode_names.go:8-27 | Valid subdomains without a double dash are left alone. |
| Sanitizer.ObjectNameIdempotent | internal/controller/nomadnode_names.go:12-27 | Sanitizing twice is sanitizing once. |
| Sanitizer.ObjectNameImage | internal/controller/nomadnode_names.go:12-27 | The image is the set of fixed points, and both are exactly the valid subdomains without a double dash. |
| SanitizerExact.LabelExact | internal/controller/nomadnode_names.go:33-53 | Every label, exactly: its letters and digits in order, lower-cased, one dash where anything else stood between two of them, cut at 63 without a dash at the end. |
| SanitizerExact.NameExact | internal/controller/nomadnode_names.go:12-27 | Every object name, exactly: those labels, the empty ones dropped, joined by dots, cut at 253 without separators at the end, and "node" exactly when the name has no letter or digit. |
| Conditions.StatusObject.SetCondition | internal/controller/conditions.go:15-34 | The scan that overwrites in place or appends is the list upsert, keeping the transition time of an unchanged status. |
| Conditions.StatusObject.SetNodeCondition | internal/controller/nomadnode_controller.go:490-505 | The same for NomadNodes. |
| Conditions.FindUpsert | internal/controller/conditions.go:15-34 | An upsert changes what is found for its own type and nothing else: the list refines a map. |
| Conditions.ReplayKeepsKindsUnique | internal/controller/conditions.go:15-34 | No history of upserts ever stores two entries of one type. |
| Conditions.FindReplay | internal/controller/conditions.go:15-34 | After any history a type holds the last call made for it, stamped over what the earlier calls left. |
| Conditions.ReplayLastTransition | internal/controller/conditions.go:15-34 | The stored transition time is the clock of the first call in the last run of equal statuses for that type. |
| Conditions.LastCallStored | internal/controller/conditions.go:15-34 | The same in the condition's fields: status, reason, message and generation of the last call. |
| Conditions.ReplayFrame | internal/controller/conditions.go:15-34 | Types a history never mentions keep their entry. |
| Binding.BindNodes | internal/controller/nomadnode_controller.go:97-128 | Grouping by name and choosing per group, in any map order, computes the bound stubs and the refused names. |
| Binding.ResolveCollisionOwners | internal/controller/nomadnode_controller.go:134-149 | Walking the bound stubs in any map order yields, for each object name, the (CreateIndex, Name)-least stub sanitizing to it. |
| Binding.BindPartitions | internal/controller/nomadnode_controller.go:97-128 | Every listed name is bound or refused, never both, and nothing else is either. |
| Binding.BoundMeaning | internal/controller/nomadnode_controller.go:112-126 | A bound name stands for its only live stub or, when all are down, for one of greatest CreateIndex. |
| Binding.DupesMeaning | internal/controller/nomadnode_controller.go:116-124 | A name is refused exactly when two of its list entries are not down. |
| Binding.BindIgnoresListOrder | internal/controller/nomadnode_controller.go:97-128 | Permuting the list changes nothing, given distinct CreateIndexes among the down stubs of a name. |
| Binding.OwnersUnique | internal/controller/nomadnode_controller.go:134-149 | There is only one choice of owners, so map order cannot matter. |
| NodeCalls.OwnerIsFirst | internal/controller/nomadnode_controller.go:134-149 | The owner was created first, and among those created at the same index its name comes first in text order. |
| KeyedLoop.Confluent | internal/controller/nomadnode_controller.go:70-79 | A loop whose steps each touch one slot, with one acting name per slot, ends in the same store, the same multiset of calls and the same failures in every order. |
| KeyedLoop.StoppedRunIsPrefix | internal/controller/nomadnode_controller.go:388-463 | A loop that returns at its first error behaves like the full loop over a prefix of its order. |
| Upsert.OthersSkip | internal/controller/nomadnode_controller.go:170-191 | Of the nodes colliding on an object name, all but the acting one leave the object alone and call nothing. |
| Upsert.ActorStays | internal/controller/nomadnode_controller.go:154-232 | Whatever its calls did, the acting node stays the acting one. |
| Upsert.QuietReadsOnly | internal/controller/nomadnode_controller.go:268-325 | Reflecting an object that asks for nothing new only reads from Nomad, and stays that way, whatever fails. |
| Upsert.KnownNodeStaysUnwritten | internal/controller/nomadnode_controller.go:193-325 | No number of passes over a node that is draining or of known eligibility, minting included, writes to Nomad while spec and node stay as they are, whatever the calls answer and however they fail. |
| Upsert.FirstSightReadsOnly | internal/controller/nomadnode_controller.go:193-244 | The condition is sharp: a pass that mints an object writes nothing to Nomad exactly for such nodes. |
| NodeCalls.DrainCalls | internal/controller/nomadnode_controller.go:268-309 | With a drain wanted, one is started exactly on a node that is not draining and whose generation is not dealt with, with the spec's own deadline or one hour and its choice about system jobs. |
| NodeCalls.EligibilityCalls | internal/controller/nomadnode_controller.go:311-325 | With none wanted, a running drain is cancelled leaving the node as eligible as the spec says, and otherwise eligibility is written exactly when it differs. |
| NodeCalls.AdoptionFlag | internal/controller/nomadnode_controller.go:253-296 | Adopting a running drain flags it as pending restart exactly if it can be read and is not the one asked for. |
| NodeCalls.MirroredObject | internal/controller/nomadnode_controller.go:345-363 | When every call works the stored object mirrors the stub field by field and keeps its spec. |
| NodeCalls.MintedObject | internal/controller/nomadnode_controller.go:193-244 | A minted object belongs to the cluster and the node, is eligible unless the node is known not to be, and has the drain that is running. |
| NodeCalls.ReadoptedObject | internal/controller/nomadnode_controller.go:163-191 | An object whose recorded node is gone is deleted and minted again for the owner. |
| NodeCalls.MarkedObject | internal/controller/nomadnode_controller.go:388-420 | Marking changes the Reconciled condition only, or creates an ineligible object bound to no node. |
| NodeCalls.FlaggedObject | internal/controller/nomadnode_controller.go:368-384 | Flagging changes the Reconciled condition of the cluster's own objects only. |
| NodeCalls.PrunedObject | internal/controller/nomadnode_controller.go:426-463 | Pruning deletes an object exactly if it is the cluster's and its name is not present. |
| Reflect.UpsertsHaveSingleActor | internal/controller/nomadnode_controller.go:154-232 | The reflect loop meets the hypothesis of confluence: one acting node per object name. |
| Reflect.ReflectConfluent | internal/controller/nomadnode_controller.go:70-79 | Every order over the bound nodes, with any per-node failures, ends in the same store, the same multiset of calls and the same failed nodes. |
| Reflect.OwnersAfterReflect | internal/controller/nomadnode_controller.go:134-191 | After an error-free loop each owned object name holds the recorded node if it is still bound, else the owner. |
| Reflect.UnownedUntouched | internal/controller/nomadnode_controller.go:70-79 | Object names no bound node sanitizes to are left alone. |
| NodeReflection.UpsertsSafe | internal/controller/nomadnode_controller.go:170-191 | The reflect loop deletes no object of a bound node, whatever fails or races. |
| NodeReflection.PassReflectsExactly | internal/controller/nomadnode_controller.go:68-89 | An error-free pass over a non-empty list leaves an object under the name of every listed node, none of this cluster under any other name, and at every owned name the node the owner rule gives. |
| NodeExact.OwnNamesExact | internal/controller/nomadnode_controller.go:154-191 | After such a pass the cluster's own object names are exactly the sanitized names of the listed nodes if and only if no such name was held by an object of somebody else that a pass keeps. |
| NodeExact.StoreExact | internal/controller/nomadnode_controller.go:68-89 | When all objects are the cluster's own, the store holds exactly the names of the listed nodes. |
| NodeReflection.PassStabilises | internal/controller/nomadnode_controller.go:68-89 | A pass over a list the store reflects creates and deletes nothing and changes no spec, whatever fails. |
| NodeReflection.SecondPassStable | internal/controller/nomadnode_controller.go:68-89 | After one error-free pass a second over the same list, in any order, creates, deletes and renames nothing. |
| NodeMirrors.PassShows | internal/controller/nomadnode_controller.go:68-89 | After an error-free pass the object of a bound node shows what the list said of its node, exactly if no ambiguous name shares its object name; otherwise it says ambiguous. |
| NodeMirrors.PassSaysAmbiguous | internal/controller/nomadnode_controller.go:388-420 | Every ambiguous name ends with an object that says so. |
| NodeMirrors.UnlistedPass | internal/controller/nomadnode_controller.go:43-66 | A pass without a Ready cluster or a node list calls nothing and only flags the cluster's own objects, all listed ones if no write fails; one without a client does nothing. |
| NodeRuns.PassDeletesSafely | internal/controller/nomadnode_controller.go:43-89 | Every delete of a pass is of an object whose node a successful, non-empty list does not bind. |
| NodeRuns.RunDeletesSafely | internal/controller/nomadnode_controller.go:43-66 | The same over every run of passes with failures among objects users create, edit and delete; passes that are not ready, fail to list or see an empty list delete nothing. |
| NodeMarks.MarksConfluentIff | internal/controller/nomadnode_controller.go:388-420 | Marking is order independent if and only if no two ambiguous names share an absent object name. |
| NodeMarks.MarksOrderMatters | internal/controller/nomadnode_controller.go:388-420 | Two names that differ in case, on an empty store, show the dependence. |
| NodeReflector.Reflector.DriveDesired | internal/controller/nomadnode_controller.go:268-325 | The drain and eligibility branches, with their status writes, make exactly the specified calls and leave exactly the specified object. |
| NodeReflector.Reflector.UpsertNode | internal/controller/nomadnode_controller.go:154-232 | Get, skip, re-adopt, mint, drive and mirror for one bound node, with every call's failure. |
| NodeReflector.Reflector.ReflectBound | internal/controller/nomadnode_controller.go:70-79 | The loop over the bound map, in any order, going on after a node fails. |
| NodeReflector.Reflector.MarkDuplicates | internal/controller/nomadnode_controller.go:388-420 | The loop over the ambiguous names, stopping at the first error. |
| NodeReflector.Reflector.PruneAbsent | internal/controller/nomadnode_controller.go:426-463 | The list guard and the deleting loop, stopping at the first error. |
| NodeReflector.Reflector.MarkClusterNotReady | internal/controller/nomadnode_controller.go:368-384 | The loop that flags the cluster's objects and leaves their mirrored status stale. |
| NodeReflector.Reflector.Reconcile | internal/controller/nomadnode_controller.go:38-90 | A whole pass equals the pass function: same store, same calls in order, same success. |
| DrainRuns.DrainIssuanceBound | internal/controller/nomadnode_controller.go:268-309 | Over every run the drains started for a spec generation are at most 1 + interferences + unrecorded starts, and the calls to start one at most that plus the refused ones. |
| DrainRuns.RefusedCallsRepeat | internal/controller/nomadnode_controller.go:302-306 | The refused calls belong in the bound: every refused pass makes one more call, for any number of passes. |
| DrainRuns.CreditKept | internal/controller/nomadnode_controller.go:333-342 | Every event keeps the account behind that bound: a start is owed, spent, or compensated. |
| DrainRuns.RunningDrainUntouched | internal/controller/nomadnode_controller.go:268-309 | While a drain is asked for and nobody else acts, no run changes a draining node, so its deadline never slides. |
| DrainRuns.StartedDrainIsAskedFor | internal/controller/nomadnode_controller.go:297-309 | In every run a drain the operator started is the one the spec asked for when it was started. |
| DrainRuns.NeverReissued | internal/controller/nomadnode_controller.go:283-296 | No drain is issued to a node seen as draining. |
| DrainRuns.EligibilityWritesBound | internal/controller/nomadnode_controller.go:311-325 | With no drain wanted and no interference Nomad accepts at most one write per spec edit, and a settled node stays settled. |
| DrainRuns.PassSettles | internal/controller/nomadnode_controller.go:311-325 | One accepted write leaves the node not draining and eligible exactly as the spec says. |
| DrainRuns.QuietWhenSettled | internal/controller/nomadnode_controller.go:311-325 | A pass writes to Nomad if and only if the node is not settled and the write is accepted. |
| ClusterPhase.ClusterReconciler.Reconcile | internal/controller/nomadcluster_controller.go:79-194 | A pass, with the mid-pass status write and every early return, persists, reports and returns exactly what the pass function says. |
| ClusterPhase.ClusterReconciler.BootstrapAndReady | internal/controller/nomadcluster_controller.go:222-262 | Quorum, leader, bootstrap and Ready, in this order, with the status persisted and the error returned. |
| ClusterPhase.ClusterReconciler.CheckAddressDrift | internal/controller/nomadcluster_controller.go:335-354 | The drift condition, and an event only for a change, warned about only while Ready for a single server. |
| ClusterPhase.PassKeepsInv | internal/controller/nomadcluster_controller.go:79-194 | Every pass keeps the status invariant and moves the phase only as allowed: out of Ready only to Degraded on a lost leader, into Ready only with a leader and a confirmed bootstrap. |
| ClusterPhase.RunKeepsInv | internal/controller/nomadcluster_controller.go:79-194 | In every run Ready is the Ready condition, implies quorum, and a provisioned cluster has external access and an address. |
| ClusterPhase.ProvisionedForever | internal/controller/nomadcluster_controller.go:93-137 | Once Ready or Degraded, no certificate, address or API failure leads out of these phases. |
| ClusterPhase.ReadyWasConfirmed | internal/controller/nomadcluster_controller.go:222-262 | A Ready cluster became Ready in a pass that saw a leader and a confirmed bootstrap, and has been Ready since. |
| ClusterOutcome.GoodPassIsReady | internal/controller/nomadcluster_controller.go:139-261 | A pass that gets its address, applies and client, a leader and a confirmed bootstrap persists Ready with all conditions and that leader, whatever the status was. |
| ClusterOutcome.FailedBootstrap | internal/controller/nomadcluster_controller.go:250-253 | A failed bootstrap keeps the phase of a provisioned cluster and leaves any other Bootstrapping. |
| ClusterOutcome.NoLeader | internal/controller/nomadcluster_controller.go:227-236 | Without a leader a Ready cluster is Degraded and no phase goes back. |
| ClusterOutcome.StoppedAfterAddress | internal/controller/nomadcluster_controller.go:147-185 | An error after the address was persisted leaves exactly the address and the drift. |
| ClusterOutcome.NotYetReachable | internal/controller/nomadcluster_controller.go:96-138 | Without certificate or address a provisioned cluster keeps phase and conditions, any other is Pending for that reason. |
| ClusterOutcome.EarlyError | internal/controller/nomadcluster_controller.go:90-123 | An error before that leaves the status alone. |
| ClusterOutcome.DriftReported | internal/controller/nomadcluster_controller.go:335-354 | Event, warning and condition of a changed address, by number of servers and phase. |
| ClusterOutcome.RecoversReady | internal/controller/nomadcluster_controller.go:222-261 | However a run went, one good pass makes the cluster Ready. |
| ClusterPhase.DriftEventsExact | internal/controller/nomadcluster_controller.go:139-150 | If the mid-pass writes land, events are exactly the adjacent changes of resolved addresses, and the persisted address is the last one. |
| DriftExact.DriftEventsExactIff | internal/controller/nomadcluster_controller.go:139-150 | Whatever writes fail, a replicated cluster's events are exactly the adjacent changes if and only if no address is resolved while the one before it is not the persisted one, except for the same address before any was persisted. |
| ClusterPhase.RefusedWriteRepeatsEvent | internal/controller/nomadcluster_controller.go:139-150 | A refused mid-pass write makes the same change be reported twice: the hypothesis is needed. |
| AclBootstrap.StepKeepsInv | internal/controller/security.go:124-170 | Every step, crash, recreation and late effect keeps the invariant: one token, held by every bootstrapped Nomad. |
| AclBootstrap.BootstrapSafety | internal/controller/security.go:98-170 | In every reachable state a bootstrapped Nomad holds the Secret's token, every success is for a bootstrapped Nomad, and the Secret was written at most twice. |
| AclBootstrap.TokenNeverChanges | internal/controller/security.go:124-170 | Whatever happens after the Secret exists, its token stays. |
| AclBootstrap.TokenWasMinted | internal/controller/security.go:132-147 | The Secret's token is one that some pass of the run minted. |
| AclBootstrap.AnnotatedAfterBootstrap | internal/controller/security.go:154-169 | The marker is only on the Secret once some Nomad was bootstrapped with its token. |
| AclBootstrap.TokenKeeper.EnsureBootstrapToken | internal/controller/security.go:124-170 | An uninterrupted pass is a run of the machine; success means the current Nomad is bootstrapped with the Secret's token and the Secret annotated, a Secret that is written holds the minted token and one that was there keeps its own, and a pass without faults succeeds. |
| PoolSafety.StepKeepsInv | internal/controller/nomadpool_controller.go:63-261 | Every step keeps a carrier for every pool that is owed one: a resource with the finalizer whose pass is not past deleting the pool. |
| PoolSafety.CarrierStays | internal/controller/nomadpool_controller.go:196-261 | No step of any pass, user or cluster takes the carrier away while the pool is owed one. |
| PoolSafety.NoOrphan | internal/controller/nomadpool_controller.go:63-261 | In every interleaving a registered pool has a resource with the finalizer, and is not built in, unless its cluster was gone or going since, or the registration took effect late with no resource there to carry it. |
| PoolOrphans.LostExactly | internal/controller/nomadpool_controller.go:196-261 | A step leaves a registered pool with no resource to see to it if and only if the last such resource drops the finalizer on the gone-or-going path while the pool is there, or an abandoned registration takes effect with none left. |
| PoolOrphans.OrphanHasCause | internal/controller/nomadpool_controller.go:196-261 | Behind every orphan after a run is one of these two steps, and the pool has been lost since. |
| PoolOrphans.LandingExact | internal/controller/nomadpool_controller.go:156-162 | A registration that takes effect late leaves the pool with a carrier if and only if it had one before, and the pool is recorded as late exactly when not. |
| PoolOrphans.RecreatedOrphan | internal/controller/security.go:49-51 | When a cluster is created again after the last resource of a pool dropped the finalizer, the pool is an orphan if and only if it was still there at the drop and the data is retained. |
| PoolInstances.LateRegistrationOrphans | internal/controller/nomadpool_controller.go:156-162 | A reachable orphan on a cluster that never went away. |
| PoolInstances.RetainedDataOrphans | docs/runbooks/nomadpool.md:85-96 | A reachable orphan on a cluster created again on its retained data. |
| PoolInstances.NoBuiltinDeleted | internal/controller/nomadpool_controller.go:226-230 | In every run, as long as no resource for a built-in pool is created, no delete of one is issued. |
| PoolInstances.BuiltinCanBeDeleted | api/v1alpha1/nomadpool_types.go:59-60 | With such a resource one is issued: admission has to prevent it. |
| PoolCascade.TurnDrains | internal/controller/nomadpool_controller.go:196-211 | Wherever the pass over a deleting resource of a gone or going cluster is, its own turn removes it or lowers the measure, and turns of others leave it alone. |
| PoolCascade.CascadeDrains | internal/controller/nomadpool_controller.go:196-211 | Such a resource is gone after its turns, from any sound state and however the turns interleave with those of others. |
| PoolCascade.CascadeCompletes | internal/controller/nomadpool_controller.go:191-211 | A schedule that gives every deleting resource of the cluster its turns removes them all, and issues no Nomad delete for the cluster unless one was under way when it went. |
| PoolCascade.TurnsAreRun | internal/controller/nomadpool_controller.go:63-125 | A schedule of turns is a run of the machine in which no cluster is created. |
| PoolCascade.GoneClusterNeverDeletes | internal/controller/nomadpool_controller.go:191-211 | Once the cluster is gone or going no run issues a Nomad delete for it until it is created again. |
| PoolPass.FinalPass | internal/controller/nomadpool_controller.go:212-254 | With a Ready cluster an error-free pass removes pool and resource, whether or not the pool is still there: a crash between delete and drop is recovered from. |
| PoolPass.LivePass | internal/controller/nomadpool_controller.go:63-189 | An error-free pass takes the finalizer, sets the owner and writes the managed fields, keeping the unmanaged ones; other resources are untouched. |
| PoolPass.SecondPassQuiet | internal/controller/nomadpool_controller.go:102-162 | A second pass writes nothing anywhere. |
| PoolPass.PassIsRun | internal/controller/nomadpool_controller.go:63-125 | A pass with any failures is a run of the machine, so the safety results cover it. |
| PoolSiblings.SiblingBlocksPass | internal/controller/nomadpool_controller.go:139-155 | While another live resource names the same cluster and pool, a pass registers and deletes nothing, however its calls end. |
| PoolSiblings.RegistrationWasChecked | internal/controller/nomadpool_controller.go:139-160 | In every run a registration is only sent by a pass that found no live sibling and has been under way since. |
| PoolSiblings.NotReadyPass | internal/controller/nomadpool_controller.go:79-101 | A pass whose cluster is absent or not Ready registers and deletes nothing. |
| PoolSiblings.BlipKeepsFinalizer | internal/controller/nomadpool_controller.go:209-217 | With the cluster there but not Ready, finalizing changes nothing. |
| PoolSiblings.FailedDeleteKeepsFinalizer | internal/controller/nomadpool_controller.go:228-248 | A delete that is refused or loses its answer keeps the resource and its finalizer. |
| PoolSiblings.GonePass | internal/controller/nomadpool_controller.go:201-206 | With the cluster gone or going, finalizing removes the resource and calls nothing. |
| PoolSiblings.LivePassPool | internal/controller/nomadpool_controller.go:156-189 | An error-free pass gives the pool the spec's managed field and keeps the others. |
| PoolProgram.PoolReconciler.Reconcile | internal/controller/nomadpool_controller.go:63-125 | The reconciler makes exactly the steps of the machine, for every outcome of every call. |
| PoolProgram.PoolReconciler.ReconcilePool | internal/controller/nomadpool_controller.go:130-175 | Guard, conflict check, read, compare, write: the machine's steps from the list on. |
| PoolProgram.PoolReconciler.FinalizePool | internal/controller/nomadpool_controller.go:196-261 | Resolve, delete unless gone or going, drop: the machine's steps. |
| PoolProgram.PoolReconciler.HasPoolNameConflict | internal/controller/nomadpool_controller.go:276-288 | The loop finds a conflict exactly when another live resource names the same cluster and pool. |
| PoolProgram.ClusterKeyInjective | internal/controller/nomadpool_controller.go:264-266 | The joined key determines cluster and pool, as pool names hold no slash. |
| PoolProgram.ClusterKeyNeedsRestriction | api/v1alpha1/nomadpool_types.go:58-60 | Without the pattern on pool names two different pools would share a key. |
| Decimal.ValueOfDigits | internal/controller/config_render.go:66 | Reading a printed number gives it back. |
| Decimal.ItoaInjective | internal/controller/config_render.go:66 | Printing is injective on all integers. |
| RpcPath.BuildRpcPorts | internal/controller/resources_workload.go:22-30 | The printed list splits into exactly the numerals of the ports. |
| RpcPath.SelectPort | internal/controller/resources_workload.go:84-89 | The script's loop selects the word at the ordinal of the host name, and nothing when there is none. |
| RpcPath.WordsOfSpaced | internal/controller/resources_workload.go:25-29 | Field splitting undoes the printing loop. |
| RpcPath.SuffixOfPodName | internal/controller/names.go:45-47 | What follows the last dash of a pod name is its ordinal. |
| RpcPath.Entrypoint | internal/controller/resources_workload.go:43-100 | End to end, pod i selects exactly the decimal of port i; a lone server advertises the gateway with it, any other its own address with port 4647. |
| Gateway.BuildManagedGateway | internal/controller/resources_gateway.go:28-52 | The HTTP listener and one TCP listener per port, in order. |
| Gateway.BuildTCPRoutes | internal/controller/resources_gateway.go:93-110 | One route per server, on its own listener and to its own service. |
| Gateway.EnsureExistingGateway | internal/controller/resources_gateway.go:151-219 | Ready if and only if the HTTP route and the RPC route of every port can attach with protocol, port or hostname and namespace, and some address is not empty; the address is the first such. |
| Gateway.CheckRPCListeners | internal/controller/resources_gateway.go:196-209 | The port loop accepts exactly the gateways that serve every RPC route. |
| Gateway.ByNameMeaning | internal/controller/resources_gateway.go:179-182 | The map filled by the loop holds exactly the listener a section name denotes, the last of its name. |
| Gateway.ManagedGatewayServes | internal/controller/resources_gateway.go:28-52 | Every gateway the operator builds passes the verification for the same spec and namespace. |
| Gateway.BuiltObjects | internal/controller/resources_gateway.go:19-110 | Listeners and routes in the spec's own fields: names, ports, hostnames, services and parent. |
| Gateway.AdmissionMeaning | internal/controller/resources_gateway.go:227-240 | A listener admits a namespace exactly if it admits all, or its own and it is that one. |
| Gateway.PortReachesItsPods | internal/controller/resources_gateway.go:93-110 | Through a gateway that passed, listener, route, service and selector lead from a port to exactly the pods it is the port of. |
| Gateway.PortReachesOnlyItsPod | internal/controller/resources_workload.go:121-134 | With distinct ports each reaches its own pod only. |

## Left out

- PoolSafety.NoOrphan: for pools whose cluster was not gone or going since they were registered and that were not registered late without a carrier; in those cases the property can fail, and `PoolOrphans` gives the exact conditions.
- DrainRuns.DrainIssuanceBound: a pass reads node and object at one moment.
- ClusterPhase.DriftEventsExact: for a single server, where events depend on being Ready, the hypothesis on the writes is sufficient; the exact condition is proved for replicated clusters.
- Reflect.ReflectConfluent: for passes in which no create loses a race against another client; a lost race puts an arbitrary object in the slot.
- NodeReflection.PassReflectsExactly: likewise, as for `NodeMirrors.PassShows`; whose the objects are is the subject of `NodeExact`.
- ClusterPhase.ReadyWasConfirmed: confirmation on entry only; a later failed bootstrap call leaves the phase Ready with ACLBootstrapped False.
- DrainSpecPendingRestart is not cleared when a drain is issued, so it is only claimed for the pass that adopts a drain.
- Transition times inside a reflector or cluster pass are not modelled; `Conditions` treats them for condition lists.
- User edits of NomadNodes fall between passes, not between the calls of one; in the pool protocol they fall anywhere.
- Informer lag, late effects of calls other than registrations and bootstrap requests, and removal of finalizers by hand.
- The NomadNamespace and NomadJob controllers: the same finalizer protocol.
- Status counts and conditions of NomadPools, which decide nothing.
- `ensureGossipKey`, `certSecretReady`, `clusterNomadConfig` and the Nomad HTTP clients appear through their answers.
- The HCL body, the rollout hash, StatefulSet and Service fields off the RPC path, watches and requeue intervals.
- The shell beyond field splitting, suffix removal and the loop; the host name is taken to be the pod name, which holds for names of at most 63 characters.
