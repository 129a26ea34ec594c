/** Which object names a cluster owns after an error-free pass, exactly. */
module NodeExact {
  import opened Api
  import opened NodeTypes
  import opened Sanitizer
  import opened Binding
  import opened KeyedLoop
  import opened Upsert
  import opened Reflect
  import opened NodePass
  import opened NodeReflection

  // An object of the cluster: it refers to it and carries its label.
  predicate Mine(node: Node, cluster: string) {
    node.labelled && node.cluster == cluster
  }

  function OwnNames(store: Store, cluster: string): set<string> {
    set obj | obj in store && Mine(store[obj], cluster)
  }

  // The object name of a listed node is held by an object that is not the cluster's, and a pass
  // keeps it: no bound node sanitizes to the name, or the object's node is bound.
  predicate HeldByOther(store: Store, view: View, obj: string) {
    && obj in store && !Mine(store[obj], view.cluster)
    && (obj in view.owners ==> store[obj].nodeName in view.bound)
  }

  // What a loop leaves at an object name comes from the store before or is made for the cluster.
  predicate OriginAt(store: Store, cluster: string, obj: string, cur: Option<Node>) {
    cur.Some? ==> Mine(cur.value, cluster) || (obj in store && SameSpec(cur.value, store[obj]))
  }

  ghost predicate Origins(before: Store, after: Store, cluster: string) {
    forall obj :: OriginAt(before, cluster, obj, Get(after, obj))
  }

  ghost predicate NoMarkRaces(f: PassFaults) {
    forall n :: !MarkFaultOf(f.marks, n).create.Raced?
  }

  lemma MintOrigin(stub: Stub, view: View, f: UpsertFaults, obj: string)
    requires !f.create.Raced?
    ensures var cur := MintAt(stub, view, f, obj).node; cur.Some? ==> Mine(cur.value, view.cluster)
  {
    SettleShape(Seeded(stub, view), stub, view.Info(stub.id), f);
  }

  lemma UpsertOrigin(store: Store, stub: Stub, view: View, f: UpsertFaults, obj: string, cur: Option<Node>)
    requires !f.create.Raced? && OriginAt(store, view.cluster, obj, cur)
    ensures OriginAt(store, view.cluster, obj, UpsertAt(cur, stub, view, f, obj).node)
  {
    hide MintAt;
    MintOrigin(stub, view, f, obj);
    if cur.Some? { SettleShape(cur.value, stub, view.Info(stub.id), f); }
  }

  lemma UpsertsOrigin(store: Store, view: View, order: seq<string>, faults: Faults)
    requires NoRaces(view, faults) && SetOf(order) <= view.bound.Keys
    ensures Origins(store, RunUpserts(store, view, order, faults).store, view.cluster)
  {
    hide UpsertAt;
    var loop := UpsertLoop(view, faults);
    var inv := (obj: string, cur: Option<Node>) => OriginAt(store, view.cluster, obj, cur);
    forall n, cur | n in view.bound.Keys && inv(loop.key(n), cur) ensures StepKeeps(loop, inv, _ => true, n, cur) {
      UpsertOrigin(store, view.bound[n], view, FaultOf(faults, n), ObjectName(n), cur);
    }
    RunKeeps(loop, view.bound.Keys, inv, _ => true, store, order);
  }

  lemma MarkOrigin(store: Store, name: string, cluster: string, f: MarkFaults, obj: string, cur: Option<Node>)
    requires !f.create.Raced? && OriginAt(store, cluster, obj, cur)
    ensures OriginAt(store, cluster, obj, MarkAt(cur, name, cluster, f, obj).node)
  {
  }

  lemma MarksOrigin(store: Store, cluster: string, orders: Orders, f: PassFaults)
    requires NoMarkRaces(f)
    ensures Origins(store, Marks(store, cluster, orders, f).store, cluster)
  {
    var loop := MarkLoop(cluster, f.marks);
    var inv := (obj: string, cur: Option<Node>) => OriginAt(store, cluster, obj, cur);
    forall n, cur | inv(loop.key(n), cur) ensures StepKeeps(loop, inv, _ => true, n, cur) {
      MarkOrigin(store, n, cluster, MarkFaultOf(f.marks, n), ObjectName(n), cur);
    }
    var k := StoppedRunIsPrefix(loop, store, orders.marks);
    RunKeeps(loop, SetOf(orders.marks[..k]), inv, _ => true, store, orders.marks[..k]);
  }

  /** An error-free pass in which no create loses a race: its three loops. */
  ghost predicate Clean(store: Store, view: View, stubs: seq<Stub>, orders: Orders, f: PassFaults) {
    && view.bound == Bound(stubs) && IsOwners(view.bound, view.owners) && stubs != []
    && ReflectOrders(store, view, stubs, orders, f) && NoRaces(view, f.upserts) && NoMarkRaces(f)
    && ReflectPass(store, view, stubs, orders, f).ok
  }

  // After the reflect loop: an object somebody else holds and the pass keeps is as it was, and any
  // other object is the cluster's.
  lemma UpsertsSort(store: Store, view: View, orders: Orders, f: PassFaults, obj: string)
    requires IsOwners(view.bound, view.owners) && Keyed(view.bound) && NoRaces(view, f.upserts)
    requires IsOrder(orders.upserts, view.bound.Keys) && Upserts(store, view, orders, f).failed == {}
    ensures var u := Upserts(store, view, orders, f).store;
            if HeldByOther(store, view, obj) then obj in u && SameSpec(u[obj], store[obj])
            else obj in u ==> Mine(u[obj], view.cluster)
  {
    hide RunUpserts, IsOwners, NoRaces;
    var u := Upserts(store, view, orders, f).store;
    UpsertsOrigin(store, view, orders.upserts, f.upserts);
    assert OriginAt(store, view.cluster, obj, Get(u, obj));
    if obj in view.owners {
      OwnersAfterReflect(store, view, orders.upserts, f.upserts, obj);
      UpsertsSafe(store, view, orders.upserts, f.upserts);
      assert SafeAt(store, view, obj, Get(u, obj));
    } else {
      UnownedUntouched(store, view, orders.upserts, f.upserts, obj);
    }
  }

  // Marking and pruning do not change that for the object name of a listed node.
  lemma LaterSort(u: Store, m: Store, after: Store, cluster: string, present: set<string>, obj: string)
    requires obj in u ==> KeptFrom(Get(u, obj), Get(m, obj))
    requires OriginAt(u, cluster, obj, Get(m, obj))
    requires PrunedAt(m, cluster, present, obj, Get(after, obj)) && obj in present && obj in after
    ensures if obj in u then SameSpec(after[obj], u[obj]) else Mine(after[obj], cluster)
  {
  }

  // Whose the object under a listed name is after a pass.
  lemma PresentOrigin(store: Store, view: View, stubs: seq<Stub>, orders: Orders, f: PassFaults, obj: string)
    requires Clean(store, view, stubs, orders, f) && obj in Present(NamesOf(stubs))
    ensures obj in ReflectPass(store, view, stubs, orders, f).store
    ensures Mine(ReflectPass(store, view, stubs, orders, f).store[obj], view.cluster)
            <==> !HeldByOther(store, view, obj)
  {
    BindPartitions(stubs);
    hide Bound, IsOwners, RunUpserts, Marks, Prune, NoRaces;
    var after := ReflectPass(store, view, stubs, orders, f).store;
    var u := Upserts(store, view, orders, f).store;
    var m := Marks(u, view.cluster, orders, f).store;
    PassReflectsExactly(store, view, stubs, orders, f);
    UpsertsSort(store, view, orders, f, obj);
    MarksOrigin(u, view.cluster, orders, f);
    MarksKeep(u, view.cluster, orders, f);
    PruneKeeps(m, view.cluster, Present(NamesOf(stubs)), f.pruneListOk, orders.prunes, f.prunes);
    LaterSort(u, m, after, view.cluster, Present(NamesOf(stubs)), obj);
  }

  /** After an error-free pass over a non-empty list, the cluster's objects are exactly those of the
      listed names if and only if no such name was held by an object of somebody else that a pass
      keeps; that is what the missing check of the cluster reference costs. */
  lemma {:induction false} OwnNamesExact(store: Store, view: View, stubs: seq<Stub>, orders: Orders, f: PassFaults)
    requires Clean(store, view, stubs, orders, f)
    ensures var after := ReflectPass(store, view, stubs, orders, f).store;
            OwnNames(after, view.cluster) == Present(NamesOf(stubs))
            <==> forall obj :: obj in Present(NamesOf(stubs)) ==> !HeldByOther(store, view, obj)
  {
    hide Clean, Bound, Mine, HeldByOther, ReflectPass;
    var after := ReflectPass(store, view, stubs, orders, f).store;
    OwnNamesPresent(store, view, stubs, orders, f);
    forall obj | obj in Present(NamesOf(stubs))
      ensures obj in OwnNames(after, view.cluster) <==> !HeldByOther(store, view, obj)
    {
      PresentOrigin(store, view, stubs, orders, f, obj);
    }
  }

  lemma OwnNamesPresent(store: Store, view: View, stubs: seq<Stub>, orders: Orders, f: PassFaults)
    requires Clean(store, view, stubs, orders, f)
    ensures OwnNames(ReflectPass(store, view, stubs, orders, f).store, view.cluster) <= Present(NamesOf(stubs))
  {
    hide Bound, IsOwners, ReflectOrders, NoRaces, ReflectPass;
    PassReflectsExactly(store, view, stubs, orders, f);
  }

  ghost predicate AllMine(store: Store, cluster: string) {
    forall obj :: obj in store ==> Mine(store[obj], cluster)
  }

  lemma PassKeepsMine(store: Store, view: View, stubs: seq<Stub>, orders: Orders, f: PassFaults)
    requires Clean(store, view, stubs, orders, f) && AllMine(store, view.cluster)
    ensures AllMine(ReflectPass(store, view, stubs, orders, f).store, view.cluster)
  {
    hide Bound, IsOwners, RunUpserts, Marks, Prune, NoRaces;
    var after := ReflectPass(store, view, stubs, orders, f).store;
    var u := Upserts(store, view, orders, f).store;
    var m := Marks(u, view.cluster, orders, f).store;
    UpsertsOrigin(store, view, orders.upserts, f.upserts);
    MarksOrigin(u, view.cluster, orders, f);
    PruneKeeps(m, view.cluster, Present(NamesOf(stubs)), f.pruneListOk, orders.prunes, f.prunes);
    forall obj | obj in after
      ensures Mine(after[obj], view.cluster)
    {
      assert PrunedAt(m, view.cluster, Present(NamesOf(stubs)), obj, Get(after, obj));
      assert OriginAt(u, view.cluster, obj, Get(m, obj)) && OriginAt(store, view.cluster, obj, Get(u, obj));
    }
  }

  /** When all objects are the cluster's own, the store holds exactly the names of the listed nodes. */
  lemma {:induction false} StoreExact(store: Store, view: View, stubs: seq<Stub>, orders: Orders, f: PassFaults)
    requires Clean(store, view, stubs, orders, f) && AllMine(store, view.cluster)
    ensures ReflectPass(store, view, stubs, orders, f).store.Keys == Present(NamesOf(stubs))
  {
    hide Clean, Bound, ReflectPass;
    var after := ReflectPass(store, view, stubs, orders, f).store;
    PassKeepsMine(store, view, stubs, orders, f);
    OwnNamesExact(store, view, stubs, orders, f);
    assert OwnNames(after, view.cluster) == after.Keys;
  }
}
