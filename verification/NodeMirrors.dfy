/** What the objects say after a pass: mirrored, ambiguous, or stale. */
module NodeMirrors {
  import opened Api
  import opened NodeTypes
  import opened Sanitizer
  import opened Binding
  import opened KeyedLoop
  import opened Upsert
  import opened Reflect
  import opened NodePass
  import opened NodeReflection

  // The object shows what the node list said, and says so.
  predicate Shows(nn: Node, stub: Stub) {
    && nn.nodeName == stub.name && nn.status.reconciled == Some(Condition(true, Reflected))
    && nn.status.mirror.Some? && nn.status.mirror.value.id == stub.id && nn.status.mirror.value.health == stub.health
    && nn.status.mirror.value.eligibility == stub.eligibility && nn.status.mirror.value.draining == stub.drain
    && nn.status.mirror.value.facts == stub.facts && nn.status.mirror.value.observedGeneration == nn.generation
  }

  predicate SaysAmbiguous(nn: Node) {
    nn.status.reconciled == Some(Condition(false, DuplicateNodeName))
  }

  /* --------------------------------- The reflect loop --------------------------------- */

  lemma SettledShows(nn: Node, stub: Stub, info: InfoReply, f: UpsertFaults)
    requires nn.nodeName == stub.name
    ensures var p := Settle(nn, stub, info, f); p.ok ==> Shows(p.stored, stub)
  {
  }

  lemma ActingShows(cur: Option<Node>, stub: Stub, view: View, f: UpsertFaults, obj: string)
    requires stub.name in view.bound && stub.name == Actor(cur, view, obj) && !f.create.Raced?
    ensures var slot := UpsertAt(cur, stub, view, f, obj);
            slot.ok ==> slot.node.Some? && slot.node.value.nodeName == stub.name && Shows(slot.node.value, stub)
  {
    ActingSlot(cur, stub, view, f, obj);
    hide Settle, Shows;
    SettledShows(Seeded(stub, view), stub, view.Info(stub.id), f);
    if cur.Some? && cur.value.nodeName == stub.name {
      SettledShows(cur.value, stub, view.Info(stub.id), f);
    }
  }

  lemma {:induction false} OwnedShows(store: Store, view: View, order: seq<string>, faults: Faults, obj: string)
    requires view.Valid() && NoRaces(view, faults) && IsOrder(order, view.bound.Keys)
    requires RunUpserts(store, view, order, faults).failed == {} && obj in view.owners
    requires obj in store ==> ObjectName(store[obj].nodeName) == obj
    ensures var after := Get(RunUpserts(store, view, order, faults).store, obj);
            after.Some? && after.value.nodeName in view.bound && Shows(after.value, view.bound[after.value.nodeName])
  {
    hide UpsertAt, ObjectName, Shows;
    var cur := Get(store, obj);
    var a := Actor(cur, view, obj);
    UpsertsHaveSingleActor(view, faults);
    ActedSlot(UpsertLoop(view, faults), view.bound.Keys, ActorFn(view), SkipFn(faults), store, order, obj);
    ActingShows(cur, view.bound[a], view, FaultOf(faults, a), obj);
  }

  /* --------------------------------- The marking loop --------------------------------- */

  lemma MarkSays(cur: Option<Node>, name: string, cluster: string, f: MarkFaults, obj: string)
    ensures var slot := MarkAt(cur, name, cluster, f, obj);
            slot.ok || (cur.Some? && SaysAmbiguous(cur.value)) ==> slot.node.Some? && SaysAmbiguous(slot.node.value)
  {
  }

  lemma {:induction false} MarksSay(store: Store, cluster: string, order: seq<string>, faults: MarkFaultMap, name: string)
    requires Run(MarkLoop(cluster, faults), store, order).failed == {} && name in order
    ensures var after := Get(Run(MarkLoop(cluster, faults), store, order).store, ObjectName(name));
            after.Some? && SaysAmbiguous(after.value)
  {
    hide ObjectName, MarkAt;
    var loop := MarkLoop(cluster, faults);
    var post := (obj: string, cur: Option<Node>) => cur.Some? && SaysAmbiguous(cur.value);
    forall n, cur ensures StepEstablishes(loop, post, n, cur) {
      MarkSays(cur, n, cluster, MarkFaultOf(faults, n), ObjectName(n));
    }
    RunEstablishes(loop, post, store, order);
    assert post(loop.key(name), Get(Run(loop, store, order).store, loop.key(name)));
  }

  /* --------------------------------- The pass --------------------------------- */

  // What the later loops do to an object name of a listed node.
  lemma {:induction false} LaterLoops(store: Store, view: View, stubs: seq<Stub>, orders: Orders, f: PassFaults, obj: string)
    requires ReflectOrders(store, view, stubs, orders, f) && ReflectPass(store, view, stubs, orders, f).ok
    requires obj in Present(NamesOf(stubs))
    ensures var u := Get(Upserts(store, view, orders, f).store, obj);
            var after := Get(ReflectPass(store, view, stubs, orders, f).store, obj);
            if obj in Present(Dupes(stubs)) then after.Some? && SaysAmbiguous(after.value) else after == u
  {
    hide ObjectName, RunUpserts, SaysAmbiguous;
    var u := Upserts(store, view, orders, f).store;
    var m := Marks(u, view.cluster, orders, f).store;
    var k := StoppedRunIsPrefix(MarkLoop(view.cluster, f.marks), u, orders.marks);
    PruneKeeps(m, view.cluster, Present(NamesOf(stubs)), f.pruneListOk, orders.prunes, f.prunes);
    assert PrunedAt(m, view.cluster, Present(NamesOf(stubs)), obj,
                    Get(ReflectPass(store, view, stubs, orders, f).store, obj));
    if obj in Present(Dupes(stubs)) {
      var n :| n in Dupes(stubs) && ObjectName(n) == obj;
      assert n in SetOf(orders.marks);
      MarksSay(u, view.cluster, orders.marks, f.marks, n);
    } else {
      forall n | n in orders.marks
        ensures MarkLoop(view.cluster, f.marks).key(n) != obj
      {
        assert n in SetOf(orders.marks);
        assert ObjectName(n) in Present(Dupes(stubs));
      }
      RunFrame(MarkLoop(view.cluster, f.marks), u, orders.marks, obj);
    }
  }

  /** After an error-free pass the object of a bound node shows what the list said of the node it
      names, exactly if no ambiguous name shares its object name; otherwise it says ambiguous. */
  lemma {:induction false} PassShows(store: Store, view: View, stubs: seq<Stub>, orders: Orders, f: PassFaults, obj: string)
    requires view.bound == Bound(stubs) && IsOwners(view.bound, view.owners)
    requires ReflectOrders(store, view, stubs, orders, f) && NoRaces(view, f.upserts)
    requires ReflectPass(store, view, stubs, orders, f).ok && obj in view.owners
    requires obj in store ==> ObjectName(store[obj].nodeName) == obj
    ensures var after := Get(ReflectPass(store, view, stubs, orders, f).store, obj);
            && after.Some? && after.value.nodeName in view.bound
            && if obj in Present(Dupes(stubs)) then SaysAmbiguous(after.value)
               else Shows(after.value, view.bound[after.value.nodeName])
  {
    hide Bound, Dupes, RunUpserts, Shows, SaysAmbiguous, ReflectPass;
    BindPartitions(stubs);
    OwnedIsPresent(view, stubs, obj);
    OwnedAfterPass(store, view, stubs, orders, f, obj);
    UpsertsFail(store, view, stubs, orders, f);
    OwnedShows(store, view, orders.upserts, f.upserts, obj);
    LaterLoops(store, view, stubs, orders, f, obj);
  }

  lemma UpsertsFail(store: Store, view: View, stubs: seq<Stub>, orders: Orders, f: PassFaults)
    requires ReflectPass(store, view, stubs, orders, f).ok
    ensures Upserts(store, view, orders, f).failed == {}
  {
  }

  /** An error-free pass leaves an object that says ambiguous under every ambiguous name. */
  lemma {:induction false} PassSaysAmbiguous(
    store: Store, view: View, stubs: seq<Stub>, orders: Orders, f: PassFaults, name: string)
    requires ReflectOrders(store, view, stubs, orders, f) && ReflectPass(store, view, stubs, orders, f).ok
    requires name in Dupes(stubs)
    ensures var after := Get(ReflectPass(store, view, stubs, orders, f).store, ObjectName(name));
            after.Some? && SaysAmbiguous(after.value)
  {
    hide ObjectName, ReflectPass, SaysAmbiguous;
    BindPartitions(stubs);
    assert ObjectName(name) in Present(Dupes(stubs)) && ObjectName(name) in Present(NamesOf(stubs));
    LaterLoops(store, view, stubs, orders, f, ObjectName(name));
  }

  /* --------------------------------- Stale objects --------------------------------- */

  // The condition of a stale object; everything else is as it was.
  predicate SaysStale(before: Node, cur: Option<Node>) {
    cur == Some(before.(status := before.status.(reconciled := Some(Condition(false, ClusterNotReady)))))
  }

  predicate FlaggedAt(store: Store, cluster: string, obj: string, cur: Option<Node>) {
    if obj in store then
      if store[obj].cluster == cluster then cur == Get(store, obj) || SaysStale(store[obj], cur)
      else cur == Get(store, obj)
    else cur == None
  }

  /** A pass that finds the cluster not Ready, or cannot list its nodes, only flags the cluster's own
      objects as stale, all listed ones if no write fails; one without a client does nothing. */
  lemma {:induction false} UnlistedPass(store: Store, input: Input, owners: map<string, string>, orders: Orders, f: PassFaults)
    requires !input.ready || !input.clientOk || input.list.None?
    requires PassOrders(store, input, owners, orders, f)
    ensures var r := Pass(store, input, owners, orders, f);
            && r.effects == [] && (forall obj :: FlaggedAt(store, input.cluster, obj, Get(r.store, obj)))
            && (input.ready && !input.clientOk ==> r.store == store && !r.ok)
            && (r.ok ==> forall obj :: obj in store && store[obj].labelled && store[obj].cluster == input.cluster ==>
                  SaysStale(store[obj], Get(r.store, obj)))
  {
    if f.flagListOk && (!input.ready || input.clientOk) {
      FlagRun(store, input.cluster, orders.flags, f.flags);
    }
  }

  predicate Flagged(cluster: string, cur: Option<Node>) {
    cur.Some? && cur.value.cluster == cluster ==> cur.value.status.reconciled == Some(Condition(false, ClusterNotReady))
  }

  lemma {:induction false} FlagRunKeeps(store: Store, cluster: string, order: seq<string>, faults: map<string, Outcome>)
    ensures var r := RunUntilFailure(FlagLoop(cluster, faults), store, order);
            r.effects == [] && forall obj :: FlaggedAt(store, cluster, obj, Get(r.store, obj))
  {
    var loop := FlagLoop(cluster, faults);
    var inv := (obj: string, cur: Option<Node>) => FlaggedAt(store, cluster, obj, cur);
    var none := (e: Effect) => false;
    var k := StoppedRunIsPrefix(loop, store, order);
    forall n, cur | inv(loop.key(n), cur) ensures StepKeeps(loop, inv, none, n, cur) {
    }
    RunKeeps(loop, SetOf(order[..k]), inv, none, store, order[..k]);
    var r := Run(loop, store, order[..k]);
    assert forall obj :: inv(obj, Get(r.store, obj));
    NoMembers(r.effects);
  }

  lemma {:induction false} FlagRunEstablishes(
    store: Store, cluster: string, order: seq<string>, faults: map<string, Outcome>, obj: string)
    requires RunUntilFailure(FlagLoop(cluster, faults), store, order).failed == {} && obj in order
    ensures Flagged(cluster, Get(RunUntilFailure(FlagLoop(cluster, faults), store, order).store, obj))
  {
    var loop := FlagLoop(cluster, faults);
    var post := (o: string, cur: Option<Node>) => Flagged(cluster, cur);
    var k := StoppedRunIsPrefix(loop, store, order);
    forall n, cur ensures StepEstablishes(loop, post, n, cur) {
    }
    RunEstablishes(loop, post, store, order);
    assert post(loop.key(obj), Get(Run(loop, store, order).store, loop.key(obj)));
  }

  lemma {:induction false} FlagRun(store: Store, cluster: string, order: seq<string>, faults: map<string, Outcome>)
    requires IsOrder(order, Listed(store))
    ensures var r := RunUntilFailure(FlagLoop(cluster, faults), store, order);
            && r.effects == [] && (forall obj :: FlaggedAt(store, cluster, obj, Get(r.store, obj)))
            && (r.failed == {} ==> forall obj :: obj in Listed(store) && store[obj].cluster == cluster ==>
                  SaysStale(store[obj], Get(r.store, obj)))
  {
    hide RunUntilFailure, FlagAt;
    FlagRunKeeps(store, cluster, order, faults);
    var r := RunUntilFailure(FlagLoop(cluster, faults), store, order);
    if r.failed == {} {
      forall obj | obj in Listed(store) && store[obj].cluster == cluster
        ensures SaysStale(store[obj], Get(r.store, obj))
      {
        assert obj in SetOf(order);
        FlagRunEstablishes(store, cluster, order, faults, obj);
        assert FlaggedAt(store, cluster, obj, Get(r.store, obj));
      }
    }
  }
}
