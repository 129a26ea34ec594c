/** One reconcile pass of the node reflector, as a function of the store and everything that may fail. */
module NodePass {
  import opened Api
  import opened NodeTypes
  import opened Sanitizer
  import opened Binding
  import opened KeyedLoop
  import opened Upsert
  import opened Reflect

  /* ------------------------------ Marking ambiguous names ------------------------------ */

  datatype MarkFaults = MarkFaults(getOk: bool, ownerRefOk: bool, create: CreateOutcome, update: Outcome)

  const NO_MARK_FAULTS := MarkFaults(true, true, Created, Ok)

  function Marked(nn: Node): Node {
    nn.(status := nn.status.(reconciled := Some(Condition(false, DuplicateNodeName))))
  }

  function FlagSlot(nn: Node, o: Outcome): NodeSlot {
    Slot(Some(if o.Applied() then Marked(nn) else nn), [], o == Ok)
  }

  function Unbound(name: string, cluster: string): Node {
    Node(cluster, true, name, false, None, 1, EMPTY_STATUS)
  }

  function MarkAt(cur: Option<Node>, name: string, cluster: string, f: MarkFaults, obj: string): NodeSlot {
    if !f.getOk then Slot(cur, [], false)
    else if cur.Some? then FlagSlot(cur.value, f.update)
    else
      var c := CreateAt(Unbound(name, cluster), f.ownerRefOk, f.create, obj);
      if !c.ok then c else Prefix(c.effects, FlagSlot(c.node.value, f.update))
  }

  type MarkFaultMap = map<string, MarkFaults>

  function MarkFaultOf(faults: MarkFaultMap, name: string): MarkFaults {
    if name in faults then faults[name] else NO_MARK_FAULTS
  }

  function MarkLoop(cluster: string, faults: MarkFaultMap): Loop<Node, Effect> {
    Loop(name => ObjectName(name),
         (name, cur) => MarkAt(cur, name, cluster, MarkFaultOf(faults, name), ObjectName(name)))
  }

  /* ---------------------------------- Pruning ---------------------------------- */

  function PruneAt(cur: Option<Node>, cluster: string, present: set<string>, o: DeleteOutcome, obj: string): NodeSlot {
    if cur.None? || cur.value.cluster != cluster || obj in present then Slot(cur, [], true)
    else match o
      case Deleted => Slot(None, [DeleteNode(obj, cur.value.nodeName)], true)
      case AlreadyGone => Slot(None, [], true)
      case DeleteRefused => Slot(cur, [], false)
      case DeleteReplyLost => Slot(None, [DeleteNode(obj, cur.value.nodeName)], false)
  }

  function PruneLoop(cluster: string, present: set<string>, faults: map<string, DeleteOutcome>): Loop<Node, Effect> {
    Loop(obj => obj,
         (obj, cur) => PruneAt(cur, cluster, present, if obj in faults then faults[obj] else Deleted, obj))
  }

  // The objects a label-selected list returns.
  function Listed(store: Store): set<string> {
    set obj | obj in store && store[obj].labelled
  }

  function Present(names: set<string>): set<string> {
    set n | n in names :: ObjectName(n)
  }

  function Prune(store: Store, cluster: string, present: set<string>, listOk: bool,
                 order: seq<string>, faults: map<string, DeleteOutcome>): Result<Node, Effect>
  {
    if !listOk then Result(store, [], {""})
    else if present == {} && order != [] then Result(store, [], {})
    else RunUntilFailure(PruneLoop(cluster, present, faults), store, order)
  }

  /* ---------------------- Flagging the nodes of an unlistable cluster ---------------------- */

  function Unlisted(nn: Node): Node {
    nn.(status := nn.status.(reconciled := Some(Condition(false, ClusterNotReady))))
  }

  function FlagAt(cur: Option<Node>, cluster: string, o: Outcome): NodeSlot {
    if cur.None? || cur.value.cluster != cluster then Slot(cur, [], true)
    else Slot(Some(if o.Applied() then Unlisted(cur.value) else cur.value), [], o == Ok)
  }

  function FlagLoop(cluster: string, faults: map<string, Outcome>): Loop<Node, Effect> {
    Loop(obj => obj, (obj, cur) => FlagAt(cur, cluster, if obj in faults then faults[obj] else Ok))
  }

  /* ---------------------------------- The pass ---------------------------------- */

  // What a pass finds: the cluster's phase, its client, and Nomad's answers.
  datatype Input = Input(
    cluster: string, ready: bool, clientOk: bool, list: Option<seq<Stub>>, info: map<string, InfoReply>)

  datatype PassFaults = PassFaults(
    upserts: Faults, marks: MarkFaultMap, pruneListOk: bool, prunes: map<string, DeleteOutcome>,
    flagListOk: bool, flags: map<string, Outcome>)

  // The order in which each loop of the pass visits its map or list.
  datatype Orders = Orders(upserts: seq<string>, marks: seq<string>, prunes: seq<string>, flags: seq<string>)

  datatype PassResult = PassResult(store: Store, effects: seq<Effect>, ok: bool)

  function ViewOf(input: Input, owners: map<string, string>): View
    requires input.list.Some?
  {
    View(input.cluster, Bound(input.list.value), owners, input.info)
  }

  function FlagPass(store: Store, input: Input, orders: Orders, f: PassFaults): PassResult {
    if !f.flagListOk then PassResult(store, [], false)
    else
      var r := RunUntilFailure(FlagLoop(input.cluster, f.flags), store, orders.flags);
      PassResult(r.store, r.effects, r.failed == {})
  }

  function Upserts(store: Store, view: View, orders: Orders, f: PassFaults): Result<Node, Effect> {
    RunUpserts(store, view, orders.upserts, f.upserts)
  }

  function Marks(store: Store, cluster: string, orders: Orders, f: PassFaults): Result<Node, Effect> {
    RunUntilFailure(MarkLoop(cluster, f.marks), store, orders.marks)
  }

  function ReflectPass(store: Store, view: View, stubs: seq<Stub>, orders: Orders, f: PassFaults): PassResult {
    var u := Upserts(store, view, orders, f);
    var m := Marks(u.store, view.cluster, orders, f);
    var p := Prune(m.store, view.cluster, Present(NamesOf(stubs)), f.pruneListOk, orders.prunes, f.prunes);
    PassResult(p.store, u.effects + m.effects + p.effects,
               u.failed == {} && m.failed == {} && p.failed == {})
  }

  function Pass(store: Store, input: Input, owners: map<string, string>, orders: Orders, f: PassFaults): PassResult {
    if !input.ready then FlagPass(store, input, orders, f)
    else if !input.clientOk then PassResult(store, [], false)
    else if input.list.None? then FlagPass(store, input, orders, f)
    else ReflectPass(store, ViewOf(input, owners), input.list.value, orders, f)
  }

  // The orders really are iteration orders of what each loop walks over.
  ghost predicate ReflectOrders(store: Store, view: View, stubs: seq<Stub>, orders: Orders, f: PassFaults) {
    && IsOrder(orders.upserts, view.bound.Keys)
    && IsOrder(orders.marks, Dupes(stubs))
    && var m := Marks(Upserts(store, view, orders, f).store, view.cluster, orders, f);
       IsOrder(orders.prunes, Listed(m.store))
  }

  ghost predicate PassOrders(store: Store, input: Input, owners: map<string, string>, orders: Orders, f: PassFaults) {
    if !input.ready || (input.clientOk && input.list.None?) then
      IsOrder(orders.flags, Listed(store))
    else if !input.clientOk then true
    else
      var view := ViewOf(input, owners);
      IsOwners(view.bound, owners) && ReflectOrders(store, view, input.list.value, orders, f)
  }
}
