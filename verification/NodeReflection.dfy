/** What passes of the node reflector guarantee: exact reflection, stabilisation, and that no
    object of a bound node is ever deleted. */
module NodeReflection {
  import opened Api
  import opened NodeTypes
  import opened Sanitizer
  import opened Binding
  import opened KeyedLoop
  import opened Upsert
  import opened Reflect
  import opened NodePass

  /* ------------------------------ What each loop keeps ------------------------------ */

  predicate Unrelated(e: Effect) { !e.CreateNode? && !e.DeleteNode? }

  // The object under a name is still there with the spec it had in `before`.
  predicate KeptFrom(before: Option<Node>, cur: Option<Node>) {
    before.Some? ==> cur.Some? && SameSpec(cur.value, before.value)
  }

  predicate BoundNode(node: Option<Node>, view: View) {
    node.Some? && node.value.nodeName in view.bound
  }

  predicate DeletesUnbound(e: Effect, view: View) {
    e.DeleteNode? ==> e.nodeName !in view.bound
  }

  lemma UpsertKeepsBound(cur: Option<Node>, stub: Stub, view: View, f: UpsertFaults, obj: string)
    requires BoundNode(cur, view)
    ensures KeptFrom(cur, UpsertAt(cur, stub, view, f, obj).node)
    ensures forall e :: e in UpsertAt(cur, stub, view, f, obj).effects ==> Unrelated(e)
  {
    SettleShape(cur.value, stub, view.Info(stub.id), f);
  }

  lemma MintDeletesNothing(stub: Stub, view: View, f: UpsertFaults, obj: string)
    ensures forall e :: e in MintAt(stub, view, f, obj).effects ==> !e.DeleteNode?
  {
    hide Settle, Seeded;
    var c := CreateAt(Seeded(stub, view), f.ownerRefOk, f.create, obj);
    assert forall e :: e in c.effects ==> !e.DeleteNode?;
    if c.ok { SettleShape(c.node.value, stub, view.Info(stub.id), f); }
  }

  lemma UpsertDeletesUnbound(cur: Option<Node>, stub: Stub, view: View, f: UpsertFaults, obj: string)
    requires stub.name in view.bound
    ensures forall e :: e in UpsertAt(cur, stub, view, f, obj).effects ==> DeletesUnbound(e, view)
  {
    if BoundNode(cur, view) {
      UpsertKeepsBound(cur, stub, view, f, obj);
    } else {
      MintDeletesNothing(stub, view, f, obj);
    }
  }

  // An object of a bound node is kept from the store before.
  predicate SafeAt(store: Store, view: View, obj: string, cur: Option<Node>) {
    BoundNode(Get(store, obj), view) ==> KeptFrom(Get(store, obj), cur)
  }

  ghost predicate KeepsBound(before: Store, after: Store, view: View) {
    forall obj :: SafeAt(before, view, obj, Get(after, obj))
  }

  lemma UpsertSafe(store: Store, view: View, n: string, f: UpsertFaults, obj: string, cur: Option<Node>)
    requires Keyed(view.bound) && n in view.bound && SafeAt(store, view, obj, cur)
    ensures var slot := UpsertAt(cur, view.bound[n], view, f, obj);
            SafeAt(store, view, obj, slot.node) && forall e :: e in slot.effects ==> DeletesUnbound(e, view)
  {
    hide UpsertAt;
    UpsertDeletesUnbound(cur, view.bound[n], view, f, obj);
    if BoundNode(Get(store, obj), view) {
      UpsertKeepsBound(cur, view.bound[n], view, f, obj);
    }
  }

  /** The reflect loop deletes no object of a bound node, whatever fails or races. */
  lemma {:induction false} UpsertsSafe(store: Store, view: View, order: seq<string>, faults: Faults)
    requires Keyed(view.bound) && SetOf(order) <= view.bound.Keys
    ensures var r := RunUpserts(store, view, order, faults);
            KeepsBound(store, r.store, view) && forall e :: e in r.effects ==> DeletesUnbound(e, view)
  {
    hide UpsertAt;
    var loop := UpsertLoop(view, faults);
    var inv := (obj: string, cur: Option<Node>) => SafeAt(store, view, obj, cur);
    var safe := (e: Effect) => DeletesUnbound(e, view);
    forall n, cur | n in view.bound.Keys && inv(loop.key(n), cur) ensures StepKeeps(loop, inv, safe, n, cur) {
      UpsertSafe(store, view, n, FaultOf(faults, n), ObjectName(n), cur);
    }
    RunKeeps(loop, view.bound.Keys, inv, safe, store, order);
  }

  // Kept from the store before, and nothing new.
  predicate IdleAt(store: Store, obj: string, cur: Option<Node>) {
    KeptFrom(Get(store, obj), cur) && (cur.Some? ==> obj in store)
  }

  function Idle(store: Store): (string, Option<Node>) -> bool {
    (obj, cur) => IdleAt(store, obj, cur)
  }

  // Same objects, same specs.
  ghost predicate AllIdle(before: Store, after: Store) {
    forall obj :: IdleAt(before, obj, Get(after, obj))
  }

  lemma UpsertIdles(store: Store, view: View, faults: Faults, n: string, cur: Option<Node>)
    requires Keyed(view.bound) && n in view.bound && BoundNode(Get(store, ObjectName(n)), view)
    requires Idle(store)(ObjectName(n), cur)
    ensures StepKeeps(UpsertLoop(view, faults), Idle(store), e => Unrelated(e), n, cur)
  {
    UpsertKeepsBound(cur, view.bound[n], view, FaultOf(faults, n), ObjectName(n));
  }

  /** When every owned object already belongs to a bound node, the reflect loop neither creates
      nor deletes, whatever fails. */
  lemma {:induction false} UpsertsIdle(store: Store, view: View, order: seq<string>, faults: Faults)
    requires view.Valid() && SetOf(order) <= view.bound.Keys
    requires forall obj :: obj in view.owners ==> BoundNode(Get(store, obj), view)
    ensures var r := RunUpserts(store, view, order, faults);
            && AllIdle(store, r.store)
            && (forall e :: e in r.effects ==> Unrelated(e))
  {
    var loop := UpsertLoop(view, faults);
    forall n, cur | n in view.bound.Keys && Idle(store)(loop.key(n), cur)
      ensures StepKeeps(loop, Idle(store), e => Unrelated(e), n, cur)
    {
      assert ObjectName(n) in view.owners;
      UpsertIdles(store, view, faults, n, cur);
    }
    RunKeeps(loop, view.bound.Keys, Idle(store), e => Unrelated(e), store, order);
  }

  lemma MarkKeeps(cur: Option<Node>, name: string, cluster: string, f: MarkFaults, obj: string)
    ensures var slot := MarkAt(cur, name, cluster, f, obj);
            && KeptFrom(cur, slot.node)
            && (slot.ok ==> slot.node.Some?)
            && (forall e :: e in slot.effects ==> e.CreateNode?)
            && (cur.Some? ==> slot.effects == [])
  {
  }

  lemma MarksKeep(store: Store, cluster: string, orders: Orders, f: PassFaults)
    ensures var r := Marks(store, cluster, orders, f);
            && (forall obj :: KeptFrom(Get(store, obj), Get(r.store, obj)))
            && (forall e :: e in r.effects ==> e.CreateNode?)
            && (r.failed == {} ==> forall n :: n in orders.marks ==> ObjectName(n) in r.store)
  {
    var loop := MarkLoop(cluster, f.marks);
    var inv := (obj: string, cur: Option<Node>) => KeptFrom(Get(store, obj), cur);
    var safe := (e: Effect) => e.CreateNode?;
    forall n, cur | inv(loop.key(n), cur) ensures StepKeeps(loop, inv, safe, n, cur) {
      MarkKeeps(cur, n, cluster, MarkFaultOf(f.marks, n), ObjectName(n));
    }
    var k := StoppedRunIsPrefix(loop, store, orders.marks);
    RunKeeps(loop, SetOf(orders.marks[..k]), inv, safe, store, orders.marks[..k]);
    if Marks(store, cluster, orders, f).failed == {} {
      MarksEstablish(store, cluster, orders.marks, f.marks);
    }
  }

  lemma MarksEstablish(store: Store, cluster: string, order: seq<string>, faults: MarkFaultMap)
    requires Run(MarkLoop(cluster, faults), store, order).failed == {}
    ensures forall n :: n in order ==> ObjectName(n) in Run(MarkLoop(cluster, faults), store, order).store
  {
    var loop := MarkLoop(cluster, faults);
    var post := (obj: string, cur: Option<Node>) => cur.Some?;
    forall n, cur ensures StepEstablishes(loop, post, n, cur) {
      MarkKeeps(cur, n, cluster, MarkFaultOf(faults, n), ObjectName(n));
    }
    RunEstablishes(loop, post, store, order);
  }

  lemma MarkIdles(store: Store, cluster: string, faults: MarkFaultMap, n: string, cur: Option<Node>)
    requires ObjectName(n) in store && Idle(store)(ObjectName(n), cur)
    ensures StepKeeps(MarkLoop(cluster, faults), Idle(store), e => Unrelated(e), n, cur)
  {
    MarkKeeps(cur, n, cluster, MarkFaultOf(faults, n), ObjectName(n));
  }

  // Marking names whose objects all exist creates nothing.
  lemma MarksIdle(store: Store, cluster: string, orders: Orders, f: PassFaults)
    requires forall n :: n in orders.marks ==> ObjectName(n) in store
    ensures var r := Marks(store, cluster, orders, f);
            && AllIdle(store, r.store)
            && (forall e :: e in r.effects ==> Unrelated(e))
  {
    var loop := MarkLoop(cluster, f.marks);
    var k := StoppedRunIsPrefix(loop, store, orders.marks);
    var order := orders.marks[..k];
    forall n, cur | n in SetOf(order) && Idle(store)(loop.key(n), cur)
      ensures StepKeeps(loop, Idle(store), e => Unrelated(e), n, cur)
    {
      MarkIdles(store, cluster, f.marks, n, cur);
    }
    RunKeeps(loop, SetOf(order), Idle(store), e => Unrelated(e), store, order);
  }

  // Pruning removes only objects of this cluster whose name is not present.
  predicate Prunable(obj: string, node: Option<Node>, cluster: string, present: set<string>) {
    node.Some? && node.value.labelled && node.value.cluster == cluster && obj !in present
  }

  predicate DeletesPrunable(e: Effect, store: Store, cluster: string, present: set<string>) {
    e.DeleteNode? && Prunable(e.obj, Get(store, e.obj), cluster, present) && store[e.obj].nodeName == e.nodeName
  }

  predicate PrunedAt(store: Store, cluster: string, present: set<string>, obj: string, cur: Option<Node>) {
    cur == Get(store, obj) || (cur == None && Prunable(obj, Get(store, obj), cluster, present))
  }

  function Pruned(store: Store, cluster: string, present: set<string>): (string, Option<Node>) -> bool {
    (obj, cur) => PrunedAt(store, cluster, present, obj, cur)
  }

  // Some prunable objects are gone; nothing else changed.
  ghost predicate OnlyPruned(before: Store, after: Store, cluster: string, present: set<string>) {
    forall obj :: PrunedAt(before, cluster, present, obj, Get(after, obj))
  }

  lemma PruneStepKeeps(store: Store, cluster: string, present: set<string>,
                       faults: map<string, DeleteOutcome>, obj: string, cur: Option<Node>)
    requires obj in Listed(store) && Pruned(store, cluster, present)(obj, cur)
    ensures StepKeeps(PruneLoop(cluster, present, faults), Pruned(store, cluster, present),
                      e => DeletesPrunable(e, store, cluster, present), obj, cur)
  {
  }

  lemma PruneKeeps(store: Store, cluster: string, present: set<string>, listOk: bool,
                   order: seq<string>, faults: map<string, DeleteOutcome>)
    requires SetOf(order) <= Listed(store)
    ensures var r := Prune(store, cluster, present, listOk, order, faults);
            && OnlyPruned(store, r.store, cluster, present)
            && (forall e :: e in r.effects ==> DeletesPrunable(e, store, cluster, present))
            && (present == {} ==> r.store == store && r.effects == [])
  {
    var loop := PruneLoop(cluster, present, faults);
    var inv := Pruned(store, cluster, present);
    var safe := (e: Effect) => DeletesPrunable(e, store, cluster, present);
    if listOk && (present != {} || order == []) {
      var k := StoppedRunIsPrefix(loop, store, order);
      forall n, cur | n in Listed(store) && inv(loop.key(n), cur) ensures StepKeeps(loop, inv, safe, n, cur) {
        PruneStepKeeps(store, cluster, present, faults, n, cur);
      }
      assert SetOf(order[..k]) <= SetOf(order);
      RunKeeps(loop, Listed(store), inv, safe, store, order[..k]);
    }
  }

  lemma PruneStepEstablishes(cluster: string, present: set<string>, faults: map<string, DeleteOutcome>,
                             post: (string, Option<Node>) -> bool)
    requires forall obj, cur :: post(obj, cur) <==> !Prunable(obj, cur, cluster, present)
    ensures forall n, cur :: StepEstablishes(PruneLoop(cluster, present, faults), post, n, cur)
  {
  }

  lemma PruneEstablishes(store: Store, cluster: string, present: set<string>,
                         order: seq<string>, faults: map<string, DeleteOutcome>)
    requires present != {} && IsOrder(order, Listed(store))
    requires Prune(store, cluster, present, true, order, faults).failed == {}
    ensures var r := Prune(store, cluster, present, true, order, faults);
            forall obj :: obj in r.store && r.store[obj].labelled && r.store[obj].cluster == cluster ==> obj in present
  {
    var loop := PruneLoop(cluster, present, faults);
    var post := (obj: string, cur: Option<Node>) => !Prunable(obj, cur, cluster, present);
    assert forall n, cur :: StepEstablishes(loop, post, n, cur) by { PruneStepEstablishes(cluster, present, faults, post); }
    hide PruneAt, Prunable;
    var k := StoppedRunIsPrefix(loop, store, order);
    RunEstablishes(loop, post, store, order);
    PruneKeeps(store, cluster, present, true, order, faults);
    var r := Prune(store, cluster, present, true, order, faults);
    forall obj | obj in r.store && r.store[obj].labelled && r.store[obj].cluster == cluster
      ensures obj in present
    {
      assert PrunedAt(store, cluster, present, obj, Get(r.store, obj));
      assert obj in SetOf(order);
      assert post(loop.key(obj), Get(r.store, obj));
    }
  }

  /* --------------------------------- Exact reflection --------------------------------- */

  lemma BoundAndDupesPresent(stubs: seq<Stub>, obj: string)
    ensures obj in Present(NamesOf(stubs))
        <==> obj in Present(Bound(stubs).Keys) || obj in Present(Dupes(stubs))
  {
    BindPartitions(stubs);
  }

  // The state of the store that a reflecting pass over `stubs` aims for.
  ghost predicate Reflects(store: Store, view: View, stubs: seq<Stub>) {
    && Present(NamesOf(stubs)) <= store.Keys
    && (forall obj :: obj in store && store[obj].labelled && store[obj].cluster == view.cluster ==>
          obj in Present(NamesOf(stubs)))
    && (forall obj :: obj in view.owners ==> BoundNode(Get(store, obj), view))
  }

  predicate OwnedBy(node: Option<Node>, view: View, obj: string, before: Option<Node>) {
    && node.Some?
    && node.value.nodeName
       == if BoundNode(before, view) then before.value.nodeName else view.Owner(obj)
  }

  /** Exact reflection: an error-free pass over a non-empty list leaves an object for every listed
      name, none of this cluster for any other name, and at every owned object name the recorded
      node if it is still bound and the deterministic owner otherwise. */
  lemma {:induction false} PassReflectsExactly(store: Store, view: View, stubs: seq<Stub>, orders: Orders, f: PassFaults)
    requires view.bound == Bound(stubs) && IsOwners(view.bound, view.owners) && stubs != []
    requires ReflectOrders(store, view, stubs, orders, f) && NoRaces(view, f.upserts)
    requires ReflectPass(store, view, stubs, orders, f).ok
    ensures var after := ReflectPass(store, view, stubs, orders, f).store;
            && Reflects(after, view, stubs)
            && forall obj :: obj in view.owners ==> OwnedBy(Get(after, obj), view, obj, Get(store, obj))
  {
    var after := ReflectPass(store, view, stubs, orders, f).store;
    forall obj | obj in view.owners
      ensures OwnedBy(Get(after, obj), view, obj, Get(store, obj)) && BoundNode(Get(after, obj), view)
    {
      OwnedAfterPass(store, view, stubs, orders, f, obj);
    }
    forall obj | obj in Present(NamesOf(stubs)) ensures obj in after {
      BoundAndDupesPresent(stubs, obj);
      if obj in Present(Dupes(stubs)) {
        DupeAfterPass(store, view, stubs, orders, f, obj);
      } else {
        assert obj in view.owners;
      }
    }
    AbsentAfterPass(store, view, stubs, orders, f);
  }

  lemma OwnedAfterPass(store: Store, view: View, stubs: seq<Stub>, orders: Orders, f: PassFaults, obj: string)
    requires view.bound == Bound(stubs) && IsOwners(view.bound, view.owners)
    requires ReflectOrders(store, view, stubs, orders, f) && NoRaces(view, f.upserts)
    requires ReflectPass(store, view, stubs, orders, f).ok
    requires obj in view.owners
    ensures var after := Get(ReflectPass(store, view, stubs, orders, f).store, obj);
            OwnedBy(after, view, obj, Get(store, obj)) && BoundNode(after, view)
  {
    BindPartitions(stubs);
    var present := Present(NamesOf(stubs));
    var u := Upserts(store, view, orders, f);
    var m := Marks(u.store, view.cluster, orders, f);
    OwnersAfterReflect(store, view, orders.upserts, f.upserts, obj);
    OwnedIsPresent(view, stubs, obj);
    MarksKeep(u.store, view.cluster, orders, f);
    PruneKeeps(m.store, view.cluster, present, f.pruneListOk, orders.prunes, f.prunes);
    SurvivesLater(u.store, m.store, ReflectPass(store, view, stubs, orders, f).store, view, present, obj);
  }

  lemma DupeAfterPass(store: Store, view: View, stubs: seq<Stub>, orders: Orders, f: PassFaults, obj: string)
    requires ReflectOrders(store, view, stubs, orders, f)
    requires ReflectPass(store, view, stubs, orders, f).ok
    requires obj in Present(Dupes(stubs))
    ensures obj in ReflectPass(store, view, stubs, orders, f).store
  {
    var present := Present(NamesOf(stubs));
    var u := Upserts(store, view, orders, f);
    var m := Marks(u.store, view.cluster, orders, f);
    MarksKeep(u.store, view.cluster, orders, f);
    var n :| n in Dupes(stubs) && ObjectName(n) == obj;
    assert n in SetOf(orders.marks);
    DupesPresent(stubs, orders.marks);
    PresentSurvivesPrune(m.store, view.cluster, present, orders, f, obj);
  }

  lemma PresentSurvivesPrune(m: Store, cluster: string, present: set<string>, orders: Orders, f: PassFaults, obj: string)
    requires SetOf(orders.prunes) <= Listed(m) && obj in m && obj in present
    ensures obj in Prune(m, cluster, present, f.pruneListOk, orders.prunes, f.prunes).store
  {
    PruneKeeps(m, cluster, present, f.pruneListOk, orders.prunes, f.prunes);
    var p := Prune(m, cluster, present, f.pruneListOk, orders.prunes, f.prunes);
    assert PrunedAt(m, cluster, present, obj, Get(p.store, obj));
  }

  lemma AbsentAfterPass(store: Store, view: View, stubs: seq<Stub>, orders: Orders, f: PassFaults)
    requires ReflectOrders(store, view, stubs, orders, f) && stubs != []
    requires ReflectPass(store, view, stubs, orders, f).ok
    ensures var after := ReflectPass(store, view, stubs, orders, f).store;
            forall obj :: obj in after && after[obj].labelled && after[obj].cluster == view.cluster ==>
              obj in Present(NamesOf(stubs))
  {
    var m := Marks(Upserts(store, view, orders, f).store, view.cluster, orders, f);
    assert stubs[0].name in NamesOf(stubs);
    assert ObjectName(stubs[0].name) in Present(NamesOf(stubs));
    PruneEstablishes(m.store, view.cluster, Present(NamesOf(stubs)), orders.prunes, f.prunes);
  }

  lemma OwnedIsPresent(view: View, stubs: seq<Stub>, obj: string)
    requires view.bound == Bound(stubs) && IsOwners(view.bound, view.owners) && obj in view.owners
    ensures obj in Present(NamesOf(stubs))
  {
    var n := view.owners[obj];
    assert n in view.bound && ObjectName(n) == obj;
    BindPartitions(stubs);
    assert n in NamesOf(stubs);
  }

  // What a present object keeps through the marking and pruning loops.
  lemma SurvivesLater(u: Store, m: Store, p: Store, view: View, present: set<string>, obj: string)
    requires KeptFrom(Get(u, obj), Get(m, obj)) && Get(u, obj).Some?
    requires PrunedAt(m, view.cluster, present, obj, Get(p, obj)) && obj in present
    ensures KeptFrom(Get(u, obj), Get(p, obj))
  {
  }

  lemma NoMembers<T>(s: seq<T>)
    ensures (forall e :: e !in s) ==> s == []
  {
    if s != [] { assert s[0] in s; }
  }

  // Every object of this cluster a pass would list is present, so pruning has nothing to do.
  lemma PruneIdle(store: Store, m: Store, view: View, stubs: seq<Stub>, orders: Orders, f: PassFaults)
    requires Reflects(store, view, stubs)
    requires AllIdle(store, m)
    requires SetOf(orders.prunes) <= Listed(m)
    ensures var p := Prune(m, view.cluster, Present(NamesOf(stubs)), f.pruneListOk, orders.prunes, f.prunes);
            p.store == m && p.effects == []
  {
    var present := Present(NamesOf(stubs));
    var p := Prune(m, view.cluster, present, f.pruneListOk, orders.prunes, f.prunes);
    PruneKeeps(m, view.cluster, present, f.pruneListOk, orders.prunes, f.prunes);
    forall obj ensures !Prunable(obj, Get(m, obj), view.cluster, present) {
      assert IdleAt(store, obj, Get(m, obj));
      assert obj in m ==> obj in store && SameSpec(m[obj], store[obj]);
    }
    forall obj ensures Get(p.store, obj) == Get(m, obj) {
      assert PrunedAt(m, view.cluster, present, obj, Get(p.store, obj));
    }
    SameStore(p.store, m);
    forall e ensures e !in p.effects {
      assert e in p.effects ==> DeletesPrunable(e, m, view.cluster, present);
    }
    NoMembers(p.effects);
  }

  lemma IdleTrans(a: Store, b: Store, c: Store)
    requires AllIdle(a, b) && AllIdle(b, c)
    ensures AllIdle(a, c)
  {
    forall obj ensures IdleAt(a, obj, Get(c, obj)) {
      assert IdleAt(a, obj, Get(b, obj)) && IdleAt(b, obj, Get(c, obj));
    }
  }

  lemma IdleMeans(a: Store, b: Store)
    requires AllIdle(a, b)
    ensures b.Keys == a.Keys && forall obj :: obj in a ==> SameSpec(b[obj], a[obj])
  {
    assert forall obj :: IdleAt(a, obj, Get(b, obj)) ==> (obj in a <==> obj in b);
  }

  lemma DupesPresent(stubs: seq<Stub>, order: seq<string>)
    requires SetOf(order) <= Dupes(stubs)
    ensures forall n :: n in order ==> ObjectName(n) in Present(NamesOf(stubs))
  {
    forall n | n in order ensures ObjectName(n) in Present(NamesOf(stubs)) {
      assert n in SetOf(order);
    }
  }

  /** Stabilisation: once the store reflects a list, a further pass over the same list creates and
      deletes nothing and keeps every spec, even if some of its calls fail. */
  lemma PassStabilises(store: Store, view: View, stubs: seq<Stub>, orders: Orders, f: PassFaults)
    requires view.bound == Bound(stubs) && IsOwners(view.bound, view.owners)
    requires Reflects(store, view, stubs)
    requires ReflectOrders(store, view, stubs, orders, f)
    ensures var r := ReflectPass(store, view, stubs, orders, f);
            && r.store.Keys == store.Keys
            && (forall obj :: obj in store ==> SameSpec(r.store[obj], store[obj]))
            && (forall e :: e in r.effects ==> Unrelated(e))
  {
    BindPartitions(stubs);
    var u := Upserts(store, view, orders, f);
    var m := Marks(u.store, view.cluster, orders, f);
    UpsertsIdle(store, view, orders.upserts, f.upserts);
    IdleMeans(store, u.store);
    DupesPresent(stubs, orders.marks);
    MarksIdle(u.store, view.cluster, orders, f);
    IdleTrans(store, u.store, m.store);
    PruneIdle(store, m.store, view, stubs, orders, f);
    IdleMeans(store, m.store);
  }

  /** Both together: after one error-free pass over a non-empty list, a second pass over the same
      list, in any order and with any failures, creates and deletes nothing and renames nothing. */
  lemma SecondPassStable(store: Store, first: View, second: View, stubs: seq<Stub>,
                         orders: Orders, f: PassFaults, orders': Orders, f': PassFaults)
    requires first.bound == Bound(stubs) && IsOwners(first.bound, first.owners) && stubs != []
    requires second.bound == first.bound && second.owners == first.owners && second.cluster == first.cluster
    requires ReflectOrders(store, first, stubs, orders, f) && NoRaces(first, f.upserts)
    requires ReflectPass(store, first, stubs, orders, f).ok
    requires ReflectOrders(ReflectPass(store, first, stubs, orders, f).store, second, stubs, orders', f')
    ensures var after := ReflectPass(store, first, stubs, orders, f).store;
            var r := ReflectPass(after, second, stubs, orders', f');
            && r.store.Keys == after.Keys
            && (forall obj :: obj in after ==> r.store[obj].nodeName == after[obj].nodeName)
            && (forall e :: e in r.effects ==> Unrelated(e))
  {
    hide ReflectPass, ReflectOrders, IsOwners, Bound, NoRaces;
    PassReflectsExactly(store, first, stubs, orders, f);
    var after := ReflectPass(store, first, stubs, orders, f).store;
    assert Reflects(after, second, stubs);
    PassStabilises(after, second, stubs, orders', f');
  }
}
