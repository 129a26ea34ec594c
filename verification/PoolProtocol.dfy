/** The finalizer protocol of a managed object, here a NomadPool: take the finalizer, register the
    pool on Nomad, delete it there when the resource is deleted, drop the finalizer.

    The protocol is a machine over single API calls. Passes over one resource are serialized by the
    work queue; passes over different resources interleave freely with each other and with users,
    with the life of the clusters, and with out-of-band changes on Nomad. A pass may crash or fail
    at every call. */
module PoolProtocol {
  import opened Api

  datatype Key = Key(cluster: string, pool: string)

  // A NomadPool resource. `body` is the managed part of its spec; `owner` the cluster object in its
  // owner reference; every write gives it a fresh version.
  datatype Resource = Resource(
    key: Key, body: string, terminating: bool, finalizer: bool, owner: Option<nat>, version: nat)

  datatype Cluster = Cluster(uid: nat, ready: bool, deleting: bool)

  // A pool on Nomad, and whether the operator registered it.
  datatype Pool = Pool(body: string, unmanaged: string, registered: bool)

  // A registration whose sender gave up waiting.
  datatype Request = Request(key: Key, pool: Pool)

  // The call a pass makes next, with the copy of the resource it works on and, once it has read
  // the cluster, the Nomad it talks to. A pass about to drop the finalizer either deleted the pool
  // or skipped that because the cluster was gone or going.
  datatype Place =
    | Adding(cr: Resource)
    | Resolving(cr: Resource)
    | Owning(cr: Resource, nomad: nat, uid: nat)
    | Listing(cr: Resource, nomad: nat)
    | Reading(cr: Resource, nomad: nat)
    | Upserting(cr: Resource, nomad: nat, unmanaged: string)
    | FinalResolving(cr: Resource)
    | Deleting(cr: Resource, nomad: nat)
    | Dropping(cr: Resource, skipped: bool)

  // `nomads` tells the Nomad behind each cluster name and `pools` its pools; both outlive the
  // cluster object, and a cluster created again may find its data retained.
  //
  // Two sets follow what a registered pool has been through since it was registered or a resource
  // took the finalizer for it. `exposed`: the cluster was gone or going. `late`: the registration
  // took effect after its sender had given up, when no resource was there to carry the pool.
  // `deletes` logs the Nomad deletes issued.
  datatype State = State(
    crs: map<string, Resource>, places: map<string, Place>,
    clusters: map<string, Cluster>, nomads: map<string, nat>, pools: map<Key, Pool>,
    inFlight: set<Request>, late: set<Key>, exposed: set<Key>,
    clock: nat, incarnations: nat, deletes: seq<Key>)

  const INITIAL := State(map[], map[], map[], map[], map[], {}, {}, {}, 0, 0, [])

  datatype Action =
    | Create(name: string, key: Key, body: string)
    | Edit(name: string, body: string)
    | Delete(name: string)
    | ClusterCreated(cluster: string, retained: bool)   // with the data of the cluster before, or without
    | ClusterPhase(cluster: string, ready: bool)
    | ClusterDeleted(cluster: string)
    | ClusterGone(cluster: string)
    | PoolChanged(key: Key, body: string, unmanaged: string)
    | PoolRemoved(key: Key)
    | Start(name: string)
    // The next call of the pass. A call to a Nomad that has been replaced meanwhile may reach the
    // new one (`hits`) or not.
    | Proceed(name: string, o: Outcome, hits: bool)
    | GiveUp(name: string)            // the registration stays in flight, the pass ends
    | Land(r: Request)
    | Crash

  const DEFAULT_POOL := "default"
  const ALL_POOL := "all"

  predicate Builtin(key: Key) {
    key.pool == DEFAULT_POOL || key.pool == ALL_POOL
  }

  /** Another live resource for the same pool on the same cluster. */
  predicate Conflict(s: State, name: string, key: Key) {
    exists other :: other in s.crs && Rival(s.crs, other, name, key)
  }

  predicate Rival(crs: map<string, Resource>, other: string, name: string, key: Key)
    requires other in crs
  {
    other != name && !crs[other].terminating && crs[other].key == key
  }

  // The cluster is there to stay.
  predicate Steady(s: State, cluster: string) {
    cluster in s.clusters && !s.clusters[cluster].deleting
  }

  function Nomad(s: State, cluster: string): nat {
    if cluster in s.nomads then s.nomads[cluster] else 0
  }

  predicate IsRegistered(s: State, key: Key) {
    key in s.pools && s.pools[key].registered
  }

  // A resource that will still see to the pool: it holds the finalizer, and no pass over it has
  // deleted the pool or is about to delete it from another Nomad than the current one.
  predicate Keeper(s: State, name: string, key: Key) {
    && name in s.crs && s.crs[name].key == key && s.crs[name].finalizer
    && (name in s.places ==>
          && (s.places[name].Dropping? ==> s.places[name].skipped)
          && (s.places[name].Deleting? ==> s.places[name].nomad == Nomad(s, key.cluster)))
  }

  // A keeper that has not made up its mind to leave the pool behind.
  predicate Carrier(s: State, name: string, key: Key) {
    Keeper(s, name, key) && (name in s.places ==> !s.places[name].Dropping?)
  }

  predicate Carried(s: State, key: Key) {
    exists name :: name in s.crs && Carrier(s, name, key)
  }

  function Leave(s: State, name: string): State { s.(places := s.places - {name}) }

  function Go(s: State, name: string, p: Place): State { s.(places := s.places[name := p]) }

  // A write to a resource, giving it the next version.
  function Write(s: State, name: string, cr: Resource): State {
    s.(crs := s.crs[name := cr.(version := s.clock + 1)], clock := s.clock + 1)
  }

  // Updates are refused when the resource changed since it was read.
  predicate Unchanged(s: State, name: string, cr: Resource) {
    name in s.crs && s.crs[name].version == cr.version
  }

  function Begin(s: State, name: string): State {
    if name in s.places || name !in s.crs then s
    else
      var cr := s.crs[name];
      if cr.terminating then (if cr.finalizer then Go(s, name, FinalResolving(cr)) else s)
      else if cr.finalizer then Go(s, name, Resolving(cr))
      else Go(s, name, Adding(cr))
  }

  function AddFinalizer(s: State, name: string, cr: Resource, o: Outcome): State {
    if o == Refused || !Unchanged(s, name, cr) then Leave(s, name)
    else
      var t := Adopt(Write(s, name, cr.(finalizer := true)), cr.key);
      if o == Ok then Go(t, name, Resolving(t.crs[name])) else Leave(t, name)
  }

  // A resource that takes the finalizer carries a pool that was left behind.
  function Adopt(s: State, key: Key): State {
    s.(late := s.late - {key}, exposed := if Steady(s, key.cluster) then s.exposed - {key} else s.exposed)
  }

  // Read the cluster; go on only if it is Ready.
  function Resolve(s: State, name: string, cr: Resource, o: Outcome): State {
    if o != Ok || cr.key.cluster !in s.clusters || !s.clusters[cr.key.cluster].ready then Leave(s, name)
    else
      var uid, nomad := s.clusters[cr.key.cluster].uid, Nomad(s, cr.key.cluster);
      Go(s, name, if cr.owner == Some(uid) then Listing(cr, nomad) else Owning(cr, nomad, uid))
  }

  function SetOwner(s: State, name: string, cr: Resource, nomad: nat, uid: nat, o: Outcome): State {
    if o == Refused || !Unchanged(s, name, cr) then Leave(s, name)
    else
      var t := Write(s, name, cr.(owner := Some(uid)));
      if o == Ok then Go(t, name, Listing(t.crs[name], nomad)) else Leave(t, name)
  }

  function CheckConflict(s: State, name: string, cr: Resource, nomad: nat, o: Outcome): State {
    if o != Ok || Builtin(cr.key) || Conflict(s, name, cr.key) then Leave(s, name)
    else Go(s, name, Reading(cr, nomad))
  }

  predicate Hits(s: State, key: Key, nomad: nat, hits: bool) {
    Nomad(s, key.cluster) == nomad || hits
  }

  // Nothing to register if the pool is there with the managed fields of the spec.
  function ReadPool(s: State, name: string, cr: Resource, nomad: nat, o: Outcome, hits: bool): State {
    if o != Ok then Leave(s, name)
    else if Hits(s, cr.key, nomad, hits) && cr.key in s.pools then
      if s.pools[cr.key].body == cr.body then Leave(s, name)
      else Go(s, name, Upserting(cr, nomad, s.pools[cr.key].unmanaged))
    else Go(s, name, Upserting(cr, nomad, ""))
  }

  // A registration takes effect.
  function Register(s: State, key: Key, p: Pool): State {
    s.(pools := s.pools[key := p],
       exposed := if Steady(s, key.cluster) then s.exposed - {key} else s.exposed + {key},
       late := if Carried(s, key) then s.late - {key} else s.late + {key})
  }

  function Upsert(s: State, name: string, cr: Resource, nomad: nat, unmanaged: string, o: Outcome, hits: bool): State {
    Leave(if o.Applied() && Hits(s, cr.key, nomad, hits) then Register(s, cr.key, Pool(cr.body, unmanaged, true)) else s,
          name)
  }

  function FinalResolve(s: State, name: string, cr: Resource, o: Outcome): State {
    if o != Ok then Leave(s, name)
    else if !Steady(s, cr.key.cluster) then Go(s, name, Dropping(cr, true))
    else if !s.clusters[cr.key.cluster].ready then Leave(s, name)
    else Go(s, name, Deleting(cr, Nomad(s, cr.key.cluster)))
  }

  // Deleted, or not there in the first place: both are success.
  function DeletePool(s: State, name: string, cr: Resource, nomad: nat, o: Outcome, hits: bool): State {
    var t := s.(
      deletes := s.deletes + [cr.key],
      pools := if o.Applied() && Hits(s, cr.key, nomad, hits) then s.pools - {cr.key} else s.pools);
    if o == Ok then Go(t, name, Dropping(cr, false)) else Leave(t, name)
  }

  // Kubernetes removes a resource being deleted with its last finalizer.
  function DropFinalizer(s: State, name: string, cr: Resource, o: Outcome): State {
    if o == Refused || !Unchanged(s, name, cr) then Leave(s, name)
    else Leave(s.(crs := s.crs - {name}), name)
  }

  function Advance(s: State, name: string, o: Outcome, hits: bool): State
    requires name in s.places
  {
    match s.places[name]
    case Adding(cr) => AddFinalizer(s, name, cr, o)
    case Resolving(cr) => Resolve(s, name, cr, o)
    case Owning(cr, nomad, uid) => SetOwner(s, name, cr, nomad, uid, o)
    case Listing(cr, nomad) => CheckConflict(s, name, cr, nomad, o)
    case Reading(cr, nomad) => ReadPool(s, name, cr, nomad, o, hits)
    case Upserting(cr, nomad, unmanaged) => Upsert(s, name, cr, nomad, unmanaged, o, hits)
    case FinalResolving(cr) => FinalResolve(s, name, cr, o)
    case Deleting(cr, nomad) => DeletePool(s, name, cr, nomad, o, hits)
    case Dropping(cr, _) => DropFinalizer(s, name, cr, o)
  }

  // The registration a pass is about to send.
  function Pending(p: Place): Request
    requires p.Upserting?
  {
    Request(p.cr.key, Pool(p.cr.body, p.unmanaged, true))
  }

  // What users do to resources.
  function UserStep(s: State, a: Action): State
    requires a.Create? || a.Edit? || a.Delete?
  {
    match a
    case Create(name, key, body) =>
      if name in s.crs then s else Write(s, name, Resource(key, body, false, false, None, 0))
    case Edit(name, body) => if name in s.crs then Write(s, name, s.crs[name].(body := body)) else s
    case Delete(name) =>
      if name !in s.crs then s
      else if s.crs[name].finalizer then Write(s, name, s.crs[name].(terminating := true))
      else s.(crs := s.crs - {name})
  }

  function PoolsOf(s: State, cluster: string): set<Key> {
    set key | key in s.pools && key.cluster == cluster
  }

  // The life of the clusters.
  function ClusterStep(s: State, a: Action): State
    requires a.ClusterCreated? || a.ClusterPhase? || a.ClusterDeleted? || a.ClusterGone?
  {
    if a.ClusterCreated? then
      if a.cluster in s.clusters then s
      else
        var t := s.(clusters := s.clusters[a.cluster := Cluster(s.incarnations, false, false)],
                    incarnations := s.incarnations + 1);
        if Retains(s, a) then t
        else t.(nomads := s.nomads[a.cluster := s.incarnations], pools := s.pools - PoolsOf(s, a.cluster))
    else if a.cluster !in s.clusters then s
    else match a
      case ClusterPhase(c, ready) => s.(clusters := s.clusters[c := s.clusters[c].(ready := ready)])
      case ClusterDeleted(c) =>
        s.(clusters := s.clusters[c := s.clusters[c].(deleting := true)], exposed := s.exposed + PoolsOf(s, c))
      case ClusterGone(c) => s.(clusters := s.clusters - {c}, exposed := s.exposed + PoolsOf(s, c))
  }

  // The new cluster comes up on the data of the one before.
  predicate Retains(s: State, a: Action)
    requires a.ClusterCreated?
  {
    a.retained && a.cluster in s.nomads
  }

  function Step(s: State, a: Action): State {
    match a
    case Create(_, _, _) => UserStep(s, a)
    case Edit(_, _) => UserStep(s, a)
    case Delete(_) => UserStep(s, a)
    case ClusterCreated(_, _) => ClusterStep(s, a)
    case ClusterPhase(_, _) => ClusterStep(s, a)
    case ClusterDeleted(_) => ClusterStep(s, a)
    case ClusterGone(_) => ClusterStep(s, a)
    case PoolChanged(key, body, unmanaged) =>
      s.(pools := s.pools[key := Pool(body, unmanaged, IsRegistered(s, key))])
    case PoolRemoved(key) => s.(pools := s.pools - {key})
    case Start(name) => Begin(s, name)
    case Proceed(name, o, hits) => if name in s.places then Advance(s, name, o, hits) else s
    case GiveUp(name) =>
      if name in s.places && s.places[name].Upserting?
      then Leave(s.(inFlight := s.inFlight + {Pending(s.places[name])}), name) else s
    case Land(r) =>
      if r in s.inFlight then Register(s.(inFlight := s.inFlight - {r}), r.key, r.pool) else s
    case Crash => s.(places := map[])
  }

  function Run(s: State, actions: seq<Action>): State
    decreases actions
  {
    if actions == [] then s else Run(Step(s, actions[0]), actions[1..])
  }

  // The resource a pass works on is still there under its key, with the finalizer.
  predicate Held(s: State, name: string, cr: Resource) {
    name in s.crs && s.crs[name].key == cr.key && s.crs[name].finalizer
  }
}
