/** Runs of the node reflector: passes, in any order and with any failures, among NomadNodes that
    users create, edit and delete. */
module NodeRuns {
  import opened Api
  import opened NodeTypes
  import opened Sanitizer
  import opened Binding
  import opened KeyedLoop
  import opened Upsert
  import opened Reflect
  import opened NodePass
  import opened NodeReflection

  datatype Event =
    | Reconcile(input: Input, owners: map<string, string>, orders: Orders, f: PassFaults)
    | UserCreate(obj: string, node: Node)
    | UserEdit(obj: string, eligible: bool, drain: Option<DrainSpec>)
    | UserDelete(obj: string)

  function Next(store: Store, e: Event): Store {
    match e
      case Reconcile(input, owners, orders, f) => Pass(store, input, owners, orders, f).store
      case UserCreate(obj, node) => if obj in store then store else store[obj := node]
      case UserEdit(obj, eligible, drain) =>
        if obj !in store then store
        else store[obj := store[obj].(eligible := eligible, drain := drain, generation := store[obj].generation + 1)]
      case UserDelete(obj) => store - {obj}
  }

  predicate Named(obj: string, node: Option<Node>) {
    node.Some? ==> obj == ObjectName(node.value.nodeName)
  }

  // Every object carries the object name of its node name: the reflector names them that way and
  // the node name is immutable.
  ghost predicate NamesHold(store: Store) {
    forall obj :: Named(obj, Get(store, obj))
  }

  // An object another client creates, between passes or in the middle of one, is named that way too.
  predicate RaceNamed(c: CreateOutcome, obj: string) {
    c.Raced? ==> Named(obj, Some(c.other))
  }

  ghost predicate RacesNamed(f: PassFaults) {
    && (forall n :: RaceNamed(FaultOf(f.upserts, n).create, ObjectName(n)))
    && (forall n :: RaceNamed(MarkFaultOf(f.marks, n).create, ObjectName(n)))
  }

  ghost predicate Legal(store: Store, e: Event) {
    match e
    case Reconcile(input, owners, orders, f) => PassOrders(store, input, owners, orders, f) && RacesNamed(f)
    case UserCreate(obj, node) => Named(obj, Some(node))
    case _ => true
  }

  ghost predicate LegalRun(store: Store, events: seq<Event>)
    decreases |events|
  {
    events == [] || (Legal(store, events[0]) && LegalRun(Next(store, events[0]), events[1..]))
  }

  // The only passes that may delete the object of a node.
  predicate MayDelete(input: Input, nodeName: string) {
    && input.ready && input.clientOk
    && input.list.Some? && input.list.value != []
    && nodeName !in Bound(input.list.value)
  }

  // Every delete call of the pass, and every object the pass loses or turns into another node's,
  // concerns a node that a successful, non-empty list does not bind.
  ghost predicate DeletesSafely(store: Store, e: Event) {
    e.Reconcile? ==>
      var r := Pass(store, e.input, e.owners, e.orders, e.f);
      && (forall c :: c in r.effects && c.DeleteNode? ==> MayDelete(e.input, c.nodeName))
      && (forall obj :: obj in store ==>
            KeptFrom(Get(store, obj), Get(r.store, obj)) || MayDelete(e.input, store[obj].nodeName))
  }

  ghost predicate SafeRun(store: Store, events: seq<Event>)
    decreases |events|
  {
    events == [] || (DeletesSafely(store, events[0]) && SafeRun(Next(store, events[0]), events[1..]))
  }

  /* ------------------------------- Names are kept ------------------------------- */

  // An upsert leaves its own node's name, the recorded one, or a racing client's.
  predicate NameFrom(node: Option<Node>, cur: Option<Node>, name: string, c: CreateOutcome) {
    node.Some? ==>
      || node.value.nodeName == name
      || (cur.Some? && node.value.nodeName == cur.value.nodeName)
      || (c.Raced? && node.value.nodeName == c.other.nodeName)
  }

  lemma MintNameFrom(cur: Option<Node>, stub: Stub, view: View, f: UpsertFaults, obj: string)
    ensures NameFrom(MintAt(stub, view, f, obj).node, cur, stub.name, f.create)
  {
    var c := CreateAt(Seeded(stub, view), f.ownerRefOk, f.create, obj);
    if c.ok { SettleShape(c.node.value, stub, view.Info(stub.id), f); }
  }

  lemma UpsertNameFrom(cur: Option<Node>, stub: Stub, view: View, f: UpsertFaults, obj: string)
    ensures NameFrom(UpsertAt(cur, stub, view, f, obj).node, cur, stub.name, f.create)
  {
    MintNameFrom(cur, stub, view, f, obj);
    if cur.Some? { SettleShape(cur.value, stub, view.Info(stub.id), f); }
  }

  lemma UpsertNames(cur: Option<Node>, stub: Stub, view: View, f: UpsertFaults, obj: string)
    requires Named(obj, cur) && obj == ObjectName(stub.name) && RaceNamed(f.create, obj)
    ensures Named(obj, UpsertAt(cur, stub, view, f, obj).node)
  {
    UpsertNameFrom(cur, stub, view, f, obj);
    var node := UpsertAt(cur, stub, view, f, obj).node;
    assert NameFrom(node, cur, stub.name, f.create);
  }

  lemma UpsertsName(store: Store, view: View, order: seq<string>, faults: Faults)
    requires Keyed(view.bound) && SetOf(order) <= view.bound.Keys && NamesHold(store)
    requires forall n :: RaceNamed(FaultOf(faults, n).create, ObjectName(n))
    ensures NamesHold(RunUpserts(store, view, order, faults).store)
  {
    var loop := UpsertLoop(view, faults);
    forall n, cur | n in view.bound.Keys && Named(loop.key(n), cur)
      ensures StepKeeps(loop, (obj, c) => Named(obj, c), e => true, n, cur)
    {
      UpsertNames(cur, view.bound[n], view, FaultOf(faults, n), ObjectName(n));
    }
    RunKeeps(loop, view.bound.Keys, (obj, c) => Named(obj, c), e => true, store, order);
  }

  lemma MarksName(store: Store, cluster: string, orders: Orders, f: PassFaults)
    requires NamesHold(store)
    requires forall n :: RaceNamed(MarkFaultOf(f.marks, n).create, ObjectName(n))
    ensures NamesHold(Marks(store, cluster, orders, f).store)
  {
    var loop := MarkLoop(cluster, f.marks);
    forall n, cur | Named(loop.key(n), cur)
      ensures StepKeeps(loop, (obj, c) => Named(obj, c), e => true, n, cur)
    {
      MarkNames(cur, n, cluster, MarkFaultOf(f.marks, n), ObjectName(n));
    }
    var k := StoppedRunIsPrefix(loop, store, orders.marks);
    RunKeeps(loop, SetOf(orders.marks[..k]), (obj, c) => Named(obj, c), e => true, store, orders.marks[..k]);
  }

  lemma MarkNames(cur: Option<Node>, name: string, cluster: string, f: MarkFaults, obj: string)
    requires Named(obj, cur) && obj == ObjectName(name) && RaceNamed(f.create, obj)
    ensures Named(obj, MarkAt(cur, name, cluster, f, obj).node)
  {
  }

  lemma PruneNames(store: Store, cluster: string, present: set<string>, orders: Orders, f: PassFaults)
    requires NamesHold(store) && SetOf(orders.prunes) <= Listed(store)
    ensures NamesHold(Prune(store, cluster, present, f.pruneListOk, orders.prunes, f.prunes).store)
  {
    var p := Prune(store, cluster, present, f.pruneListOk, orders.prunes, f.prunes);
    PruneKeeps(store, cluster, present, f.pruneListOk, orders.prunes, f.prunes);
    forall obj ensures Named(obj, Get(p.store, obj)) {
      assert PrunedAt(store, cluster, present, obj, Get(p.store, obj));
    }
  }

  lemma FlagKeeps(store: Store, cluster: string, order: seq<string>, faults: map<string, Outcome>)
    ensures var r := RunUntilFailure(FlagLoop(cluster, faults), store, order);
            && AllIdle(store, r.store)
            && (forall e :: e in r.effects ==> Unrelated(e))
  {
    var loop := FlagLoop(cluster, faults);
    var k := StoppedRunIsPrefix(loop, store, order);
    forall n, cur | Idle(store)(loop.key(n), cur)
      ensures StepKeeps(loop, Idle(store), e => Unrelated(e), n, cur)
    {
    }
    RunKeeps(loop, SetOf(order[..k]), Idle(store), e => Unrelated(e), store, order[..k]);
  }

  /* ------------------------------- One reflecting pass ------------------------------- */

  // Pruning an object whose name is right never hits a bound node.
  lemma PrunableIsUnbound(obj: string, node: Option<Node>, view: View, stubs: seq<Stub>)
    requires view.bound == Bound(stubs) && Named(obj, node)
    requires Prunable(obj, node, view.cluster, Present(NamesOf(stubs)))
    ensures node.value.nodeName !in view.bound
  {
    BindPartitions(stubs);
  }

  lemma ReflectKeepsBound(store: Store, view: View, stubs: seq<Stub>, orders: Orders, f: PassFaults, obj: string)
    requires view.bound == Bound(stubs) && ReflectOrders(store, view, stubs, orders, f)
    requires BoundNode(Get(store, obj), view) && Named(obj, Get(store, obj))
    ensures KeptFrom(Get(store, obj), Get(ReflectPass(store, view, stubs, orders, f).store, obj))
  {
    BindPartitions(stubs);
    var u := Upserts(store, view, orders, f);
    var m := Marks(u.store, view.cluster, orders, f);
    var p := Prune(m.store, view.cluster, Present(NamesOf(stubs)), f.pruneListOk, orders.prunes, f.prunes);
    UpsertsSafe(store, view, orders.upserts, f.upserts);
    assert SafeAt(store, view, obj, Get(u.store, obj));
    MarksKeep(u.store, view.cluster, orders, f);
    assert KeptFrom(Get(u.store, obj), Get(m.store, obj));
    PruneKeeps(m.store, view.cluster, Present(NamesOf(stubs)), f.pruneListOk, orders.prunes, f.prunes);
    assert PrunedAt(m.store, view.cluster, Present(NamesOf(stubs)), obj, Get(p.store, obj));
    if Prunable(obj, Get(m.store, obj), view.cluster, Present(NamesOf(stubs))) {
      PrunableIsUnbound(obj, Get(m.store, obj), view, stubs);
    }
  }

  lemma ReflectDeletesUnbound(store: Store, view: View, stubs: seq<Stub>, orders: Orders, f: PassFaults)
    requires view.bound == Bound(stubs) && ReflectOrders(store, view, stubs, orders, f)
    requires NamesHold(store) && RacesNamed(f)
    ensures var r := ReflectPass(store, view, stubs, orders, f);
            NamesHold(r.store) && forall e :: e in r.effects ==> DeletesUnbound(e, view)
  {
    BindPartitions(stubs);
    var present := Present(NamesOf(stubs));
    var u := Upserts(store, view, orders, f);
    var m := Marks(u.store, view.cluster, orders, f);
    var p := Prune(m.store, view.cluster, present, f.pruneListOk, orders.prunes, f.prunes);
    UpsertsSafe(store, view, orders.upserts, f.upserts);
    UpsertsName(store, view, orders.upserts, f.upserts);
    MarksKeep(u.store, view.cluster, orders, f);
    MarksName(u.store, view.cluster, orders, f);
    PruneKeeps(m.store, view.cluster, present, f.pruneListOk, orders.prunes, f.prunes);
    PruneNames(m.store, view.cluster, present, orders, f);
    forall e | e in p.effects ensures DeletesUnbound(e, view) {
      assert DeletesPrunable(e, m.store, view.cluster, present);
      assert Named(e.obj, Get(m.store, e.obj));
      PrunableIsUnbound(e.obj, Get(m.store, e.obj), view, stubs);
    }
  }

  // An empty list changes nothing.
  lemma EmptyListIdle(store: Store, view: View, orders: Orders, f: PassFaults)
    requires view.bound == Bound([]) && ReflectOrders(store, view, [], orders, f)
    ensures var r := ReflectPass(store, view, [], orders, f);
            r.store == store && r.effects == []
  {
    EmptyOrder(orders.upserts);
    EmptyOrder(orders.marks);
    assert SetOf(orders.upserts) == {};
    assert SetOf(orders.marks) == {};
    assert Present(NamesOf([])) == {};
    PruneKeeps(store, view.cluster, {}, f.pruneListOk, orders.prunes, f.prunes);
  }

  lemma PassDeletesSafely(store: Store, input: Input, owners: map<string, string>, orders: Orders, f: PassFaults)
    requires NamesHold(store) && PassOrders(store, input, owners, orders, f) && RacesNamed(f)
    requires input.ready && input.clientOk && input.list.Some?
    ensures DeletesSafely(store, Reconcile(input, owners, orders, f))
    ensures NamesHold(Pass(store, input, owners, orders, f).store)
  {
    var r := Pass(store, input, owners, orders, f);
    var view, stubs := ViewOf(input, owners), input.list.value;
    ReflectDeletesUnbound(store, view, stubs, orders, f);
    if stubs == [] {
      EmptyListIdle(store, view, orders, f);
    } else {
      forall obj | obj in store
        ensures KeptFrom(Get(store, obj), Get(r.store, obj)) || MayDelete(input, store[obj].nodeName)
      {
        if store[obj].nodeName in view.bound {
          assert Named(obj, Get(store, obj));
          ReflectKeepsBound(store, view, stubs, orders, f, obj);
        }
      }
    }
  }

  // A pass that does not get to reflect a list keeps every object and its spec.
  lemma OtherPassKeeps(store: Store, input: Input, owners: map<string, string>, orders: Orders, f: PassFaults)
    requires !(input.ready && input.clientOk && input.list.Some?)
    ensures var r := Pass(store, input, owners, orders, f);
            && AllIdle(store, r.store)
            && (forall e :: e in r.effects ==> Unrelated(e))
  {
    FlagKeeps(store, input.cluster, orders.flags, f.flags);
    assert AllIdle(store, store);
  }

  lemma IdleNames(store: Store, after: Store)
    requires NamesHold(store) && AllIdle(store, after)
    ensures NamesHold(after)
  {
    forall obj ensures Named(obj, Get(after, obj)) {
      assert Named(obj, Get(store, obj)) && IdleAt(store, obj, Get(after, obj));
    }
  }

  lemma UserNames(store: Store, e: Event)
    requires NamesHold(store) && !e.Reconcile? && Legal(store, e)
    ensures NamesHold(Next(store, e))
  {
    forall o ensures Named(o, Get(Next(store, e), o)) {
      assert Named(o, Get(store, o));
    }
  }

  lemma EventIsSafe(store: Store, e: Event)
    requires NamesHold(store) && Legal(store, e)
    ensures DeletesSafely(store, e) && NamesHold(Next(store, e))
  {
    if !e.Reconcile? {
      UserNames(store, e);
    } else if e.input.ready && e.input.clientOk && e.input.list.Some? {
      PassDeletesSafely(store, e.input, e.owners, e.orders, e.f);
    } else {
      OtherPassKeeps(store, e.input, e.owners, e.orders, e.f);
      var r := Pass(store, e.input, e.owners, e.orders, e.f);
      IdleNames(store, r.store);
      forall obj | obj in store ensures KeptFrom(Get(store, obj), Get(r.store, obj)) {
        assert IdleAt(store, obj, Get(r.store, obj));
      }
    }
  }

  /** Deletion safety: in every run, whatever fails, the object of a node is deleted, lost or
      re-minted for another node only in a pass whose list succeeded, was not empty, and does not
      bind that node. */
  lemma {:induction false} RunDeletesSafely(store: Store, events: seq<Event>)
    requires NamesHold(store) && LegalRun(store, events)
    ensures SafeRun(store, events)
    decreases |events|
  {
    if events != [] {
      EventIsSafe(store, events[0]);
      RunDeletesSafely(Next(store, events[0]), events[1..]);
    }
  }
}
