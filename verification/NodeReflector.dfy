/** The node reflector as the program runs it: one object that reads and writes the NomadNodes of a
    namespace and calls Nomad, step by step.

    `effects` logs the calls made. Each method is proved to do what its specification function in
    Upsert, Reflect or NodePass says; loops over Go maps visit their keys in an arbitrary order,
    which they return as a ghost. */
module NodeReflector {
  import opened Api
  import opened NodeTypes
  import opened Sanitizer
  import opened Binding
  import opened KeyedLoop
  import opened Upsert
  import opened Reflect
  import opened NodePass

  class Reflector {
    var store: Store
    var effects: seq<Effect>

    /* ------------------------------- One node ------------------------------- */

    method UpdateStatus(obj: string, node: Node, o: Outcome) returns (ok: bool)
      requires obj in store
      modifies this`store
      ensures store == old(store)[obj := if o.Applied() then node else old(store)[obj]]
      ensures ok == (o == Ok)
    {
      if o.Applied() {
        store := store[obj := node];
      }
      ok := o == Ok;
    }

    method DriveDesired(obj: string, nn: Node, stub: Stub, info: InfoReply, write: Outcome, persist: Outcome)
      returns (node: Node, ok: bool)
      requires obj in store && store[obj] == nn
      modifies this
      ensures var d := Drive(nn, stub, info, write, persist);
              && node == d.node && ok == d.ok
              && store == old(store)[obj := d.stored]
              && effects == old(effects) + d.effects
    {
      node, ok := nn, true;
      if nn.drain.Some? {
        if DrainHandled(nn, stub) {
          return;  // this generation's drain has been started already
        }
        if stub.drain {
          // Already draining: re-issuing would restart the deadline, so adopt it.
          effects := effects + [ReadInfo(stub.id)];
          var pending := Condition(false, DrainSpecInSync);
          if Diverged(nn.drain.value, info) {
            pending := Condition(true, DrainSpecEdited);
          }
          node := nn.(status := nn.status.(drainPendingRestart := Some(pending)));
          node := node.(status := node.status.(drainObservedGeneration := nn.generation));
          ok := UpdateStatus(obj, node, persist);
          return;
        }
        var deadline := DEFAULT_DEADLINE;
        if nn.drain.value.deadline.Some? {
          deadline := nn.drain.value.deadline.value;
        }
        var spec := Strategy(deadline, nn.drain.value.ignoreSystemJobs);
        effects := effects + [UpdateDrain(stub.id, Some(spec), false, write.Applied())];
        if write != Ok {
          ok := false;
          return;
        }
        node := nn.(status := nn.status.(drainObservedGeneration := nn.generation));
        ok := UpdateStatus(obj, node, persist);
        return;
      }
      if stub.drain {
        effects := effects + [UpdateDrain(stub.id, None, nn.eligible, write.Applied())];
        ok := write == Ok;
        return;
      }
      var want := Eligible;
      if !nn.eligible {
        want := Ineligible;
      }
      if stub.eligibility != want {
        effects := effects + [SetEligibility(stub.id, nn.eligible, write.Applied())];
        ok := write == Ok;
      }
    }

    // Drive the desired state, then mirror the observed one.
    method SettleNode(obj: string, stub: Stub, info: InfoReply, f: UpsertFaults) returns (ok: bool)
      requires obj in store
      modifies this
      ensures var p := Settle(old(store)[obj], stub, info, f);
              && ok == p.ok
              && store == old(store)[obj := p.stored]
              && effects == old(effects) + p.effects
    {
      var node;
      node, ok := DriveDesired(obj, store[obj], stub, info, f.write, f.persist);
      if ok {
        ok := UpdateStatus(obj, Mirrored(node, stub), f.mirror);
      }
    }

    method CreateObject(node: Node, ownerRefOk: bool, create: CreateOutcome, obj: string) returns (ok: bool)
      requires obj !in store
      modifies this
      ensures var slot := CreateAt(node, ownerRefOk, create, obj);
              && ok == slot.ok
              && store == Put(old(store), obj, slot.node)
              && effects == old(effects) + slot.effects
              && (ok ==> slot.node.Some? && obj in store && store[obj] == slot.node.value)
    {
      if !ownerRefOk {
        return false;
      }
      match create {
        case CreateRefused =>
          return false;
        case CreateReplyLost =>
          store := store[obj := node];
          effects := effects + [CreateNode(obj, node.nodeName)];
          return false;
        case Created =>
          store := store[obj := node];
          effects := effects + [CreateNode(obj, node.nodeName)];
          return true;
        case Raced(other, reread) =>
          store := store[obj := other];
          return reread;
      }
    }

    // Mint the object of the owner and settle it.
    method MintNode(stub: Stub, view: View, f: UpsertFaults, obj: string) returns (ok: bool)
      requires obj !in store
      modifies this
      ensures var slot := MintAt(stub, view, f, obj);
              && ok == slot.ok
              && store == Put(old(store), obj, slot.node)
              && effects == old(effects) + slot.effects
    {
      hide Settle;
      if view.Owner(obj) != stub.name {
        return true;  // a colliding loser
      }
      ghost var asked := if stub.drain then [ReadInfo(stub.id)] else [];
      var drain := None;
      if stub.drain {
        effects := effects + [ReadInfo(stub.id)];
        drain := Some(SeedDrain(view.Info(stub.id)));
      }
      var node := Node(view.cluster, true, stub.name, stub.eligibility != Ineligible, drain, 1, EMPTY_STATUS);
      assert node == Seeded(stub, view);
      ghost var c := CreateAt(node, f.ownerRefOk, f.create, obj);
      ok := CreateObject(node, f.ownerRefOk, f.create, obj);
      assert effects == old(effects) + (asked + c.effects);
      if ok {
        ok := SettleObject(obj, stub, view, f);
      }
    }

    method SettleObject(obj: string, stub: Stub, view: View, f: UpsertFaults) returns (ok: bool)
      requires obj in store
      modifies this
      ensures var slot := SettleSlot(old(store)[obj], stub, view, f);
              && ok == slot.ok
              && slot.node.Some? && store == old(store)[obj := slot.node.value]
              && effects == old(effects) + slot.effects
    {
      ok := SettleNode(obj, stub, view.Info(stub.id), f);
    }

    method UpsertNode(stub: Stub, view: View, f: UpsertFaults) returns (ok: bool)
      modifies this
      ensures var obj := ObjectName(stub.name);
              var slot := UpsertAt(Get(old(store), obj), stub, view, f, obj);
              && ok == slot.ok
              && store == Put(old(store), obj, slot.node)
              && effects == old(effects) + slot.effects
    {
      var obj := SanitizeNodeName(stub.name);
      ok := UpsertObject(obj, stub, view, f);
    }

    method UpsertObject(obj: string, stub: Stub, view: View, f: UpsertFaults) returns (ok: bool)
      modifies this
      ensures var slot := UpsertAt(Get(old(store), obj), stub, view, f, obj);
              && ok == slot.ok
              && store == Put(old(store), obj, slot.node)
              && effects == old(effects) + slot.effects
    {
      hide SettleSlot, MintAt;
      if !f.getOk {
        return false;
      }
      if obj !in store {
        ok := MintNode(stub, view, f, obj);
        return;
      }
      var recorded := store[obj].nodeName;
      if recorded == stub.name {
        ok := SettleObject(obj, stub, view, f);
        return;
      }
      if recorded in view.bound || view.Owner(obj) != stub.name {
        return true;  // a live collision, or not the deterministic owner
      }
      // The recorded owner is gone: delete the stale object and mint it again.
      ok := DeleteObject(obj, f.delete);
      if ok {
        ok := MintNode(stub, view, f, obj);
      }
    }

    method DeleteObject(obj: string, o: DeleteOutcome) returns (ok: bool)
      requires obj in store
      modifies this
      ensures ok == (o == Deleted || o == AlreadyGone)
      ensures store == if o == DeleteRefused then old(store) else old(store) - {obj}
      ensures effects == old(effects)
                       + if o == Deleted || o == DeleteReplyLost then [DeleteNode(obj, old(store)[obj].nodeName)] else []
    {
      if o == Deleted || o == DeleteReplyLost {
        effects := effects + [DeleteNode(obj, store[obj].nodeName)];
      }
      if o != DeleteRefused {
        store := store - {obj};
      }
      ok := o == Deleted || o == AlreadyGone;
    }

    /* ------------------------------- The loops ------------------------------- */

    // A loop that started with the log `start` has got as far as `r`.
    ghost predicate At(r: Result<Node, Effect>, start: seq<Effect>)
      reads this
    {
      store == r.store && effects == start + r.effects
    }

    method VisitBound(view: View, faults: Faults, name: string, ghost r: Result<Node, Effect>, ghost start: seq<Effect>)
      returns (ok: bool)
      requires At(r, start) && name in view.bound && view.bound[name].name == name
      modifies this
      ensures var next := Visit(UpsertLoop(view, faults), r, name);
              At(next, start) && next.failed == r.failed + if ok then {} else {name}
    {
      hide UpsertAt, ObjectName;
      ok := UpsertNode(view.bound[name], view, FaultOf(faults, name));
    }

    method VisitDuplicate(cluster: string, faults: MarkFaultMap, name: string,
                          ghost r: Result<Node, Effect>, ghost start: seq<Effect>)
      returns (ok: bool)
      requires At(r, start)
      modifies this
      ensures var next := Visit(MarkLoop(cluster, faults), r, name);
              At(next, start) && next.failed == r.failed + if ok then {} else {name}
    {
      hide MarkAt, ObjectName;
      ok := MarkDuplicate(name, cluster, MarkFaultOf(faults, name));
    }

    method VisitItem(cluster: string, present: set<string>, faults: map<string, DeleteOutcome>, obj: string,
                     ghost r: Result<Node, Effect>, ghost start: seq<Effect>)
      returns (ok: bool)
      requires At(r, start) && obj in store
      modifies this
      ensures var next := Visit(PruneLoop(cluster, present, faults), r, obj);
              At(next, start) && next.failed == r.failed + if ok then {} else {obj}
      ensures store.Keys >= old(store).Keys - {obj}
    {
      hide PruneAt;
      ok := PruneObject(obj, cluster, present, if obj in faults then faults[obj] else Deleted);
    }

    method VisitUnlisted(cluster: string, faults: map<string, Outcome>, obj: string,
                         ghost r: Result<Node, Effect>, ghost start: seq<Effect>)
      returns (ok: bool)
      requires At(r, start) && obj in store
      modifies this
      ensures var next := Visit(FlagLoop(cluster, faults), r, obj);
              At(next, start) && next.failed == r.failed + if ok then {} else {obj}
      ensures store.Keys == old(store).Keys
    {
      ok := true;
      if store[obj].cluster == cluster {
        ok := UpdateStatus(obj, Unlisted(store[obj]), if obj in faults then faults[obj] else Ok);
      }
    }

    // Reflect every bound node; one node's failure does not stop the others.
    method ReflectBound(view: View, faults: Faults) returns (failed: set<string>, ghost order: seq<string>)
      requires Keyed(view.bound)
      modifies this
      ensures IsOrder(order, view.bound.Keys)
      ensures var r := RunUpserts(old(store), view, order, faults);
              store == r.store && effects == old(effects) + r.effects && failed == r.failed
    {
      hide UpsertAt, ObjectName, Run, Visit;
      ghost var loop := UpsertLoop(view, faults);
      ghost var r := Run(loop, store, []);
      RunOfNone(loop, store);
      order, failed := [], {};
      var pending := view.bound.Keys;
      while pending != {}
        invariant Distinct(order) && SetOf(order) !! pending && SetOf(order) + pending == view.bound.Keys
        invariant r == Run(loop, old(store), order)
        invariant At(r, old(effects)) && failed == r.failed
        decreases pending
      {
        var name :| name in pending;
        var ok := VisitBound(view, faults, name, r, old(effects));
        if !ok {
          failed := failed + {name};
        }
        RunSnoc(loop, old(store), order, name);
        r := Visit(loop, r, name);
        OrderSnoc(order, name);
        pending, order := pending - {name}, order + [name];
      }
    }

    method MarkDuplicate(name: string, cluster: string, f: MarkFaults) returns (ok: bool)
      modifies this
      ensures var obj := ObjectName(name);
              var slot := MarkAt(Get(old(store), obj), name, cluster, f, obj);
              ok == slot.ok && store == Put(old(store), obj, slot.node) && effects == old(effects) + slot.effects
    {
      hide ObjectName;
      var obj := SanitizeNodeName(name);
      if !f.getOk {
        return false;
      }
      if obj !in store {
        ok := CreateObject(Unbound(name, cluster), f.ownerRefOk, f.create, obj);
        if !ok {
          return;
        }
      }
      ok := UpdateStatus(obj, Marked(store[obj]), f.update);
    }

    // Mark every ambiguous name, stopping at the first failure.
    method MarkDuplicates(cluster: string, dupes: set<string>, faults: MarkFaultMap)
      returns (ok: bool, ghost order: seq<string>)
      modifies this
      ensures IsOrder(order, dupes)
      ensures var r := RunUntilFailure(MarkLoop(cluster, faults), old(store), order);
              store == r.store && effects == old(effects) + r.effects && ok == (r.failed == {})
    {
      hide MarkAt, ObjectName, RunUntilFailure, Visit;
      ghost var loop := MarkLoop(cluster, faults);
      ghost var r := RunUntilFailure(loop, store, []);
      RunOfNone(loop, store);
      order, ok := [], true;
      var pending := dupes;
      while pending != {}
        invariant Distinct(order) && SetOf(order) !! pending && SetOf(order) + pending == dupes
        invariant r == RunUntilFailure(loop, old(store), order) && r.failed == {}
        invariant ok && At(r, old(effects))
        decreases pending
      {
        var name :| name in pending;
        ok := VisitDuplicate(cluster, faults, name, r, old(effects));
        RunSnoc(loop, old(store), order, name);
        r := Visit(loop, r, name);
        OrderSnoc(order, name);
        pending, order := pending - {name}, order + [name];
        if !ok {
          ghost var rest := OrderCompletes(dupes, order, pending);
          StoppedStays(loop, old(store), order, rest);
          order := order + rest;
          return;
        }
      }
    }

    // Delete the cluster's listed objects whose name is absent, stopping at the first failure. An
    // empty node list with objects left is taken for a glitch.
    method PruneAbsent(cluster: string, bound: set<string>, dupes: set<string>, listOk: bool,
                       faults: map<string, DeleteOutcome>)
      returns (ok: bool, ghost order: seq<string>)
      modifies this
      ensures IsOrder(order, Listed(old(store)))
      ensures var r := Prune(old(store), cluster, Present(bound + dupes), listOk, order, faults);
              store == r.store && effects == old(effects) + r.effects && ok == (r.failed == {})
    {
      hide ObjectName, PruneAt;
      var present := PresentNames(bound + dupes);
      var items := Listed(store);
      order := OrderExists(items);
      if !listOk {
        return false, order;
      }
      EmptyOrder(order);
      if present == {} && items != {} {
        return true, order;
      }
      ok, order := PruneItems(cluster, present, items, faults);
      EmptyOrder(order);
    }

    method PruneItems(cluster: string, present: set<string>, items: set<string>, faults: map<string, DeleteOutcome>)
      returns (ok: bool, ghost order: seq<string>)
      requires items <= store.Keys
      modifies this
      ensures IsOrder(order, items)
      ensures var r := RunUntilFailure(PruneLoop(cluster, present, faults), old(store), order);
              store == r.store && effects == old(effects) + r.effects && ok == (r.failed == {})
    {
      hide PruneAt, RunUntilFailure, Visit;
      ghost var loop := PruneLoop(cluster, present, faults);
      ghost var r := RunUntilFailure(loop, store, []);
      RunOfNone(loop, store);
      order, ok := [], true;
      var pending := items;
      while pending != {}
        invariant pending <= store.Keys
        invariant Distinct(order) && SetOf(order) !! pending && SetOf(order) + pending == items
        invariant r == RunUntilFailure(loop, old(store), order) && r.failed == {}
        invariant ok && At(r, old(effects))
        decreases pending
      {
        var obj :| obj in pending;
        ok := VisitItem(cluster, present, faults, obj, r, old(effects));
        RunSnoc(loop, old(store), order, obj);
        r := Visit(loop, r, obj);
        OrderSnoc(order, obj);
        pending, order := pending - {obj}, order + [obj];
        if !ok {
          ghost var rest := OrderCompletes(items, order, pending);
          StoppedStays(loop, old(store), order, rest);
          order := order + rest;
          return;
        }
      }
    }

    method PruneObject(obj: string, cluster: string, present: set<string>, o: DeleteOutcome) returns (ok: bool)
      requires obj in store
      modifies this
      ensures var slot := PruneAt(Get(old(store), obj), cluster, present, o, obj);
              ok == slot.ok && store == Put(old(store), obj, slot.node) && effects == old(effects) + slot.effects
    {
      ok := true;
      if store[obj].cluster != cluster {
        return;
      }
      if obj !in present {
        ok := DeleteObject(obj, o);
      }
    }

    // Flag the cluster's objects as not reconciled, leaving the mirrored status stale.
    method MarkClusterNotReady(cluster: string, listOk: bool, faults: map<string, Outcome>)
      returns (ok: bool, ghost order: seq<string>)
      modifies this
      ensures IsOrder(order, Listed(old(store)))
      ensures if !listOk then store == old(store) && effects == old(effects) && !ok
              else var r := RunUntilFailure(FlagLoop(cluster, faults), old(store), order);
                   store == r.store && effects == old(effects) + r.effects && ok == (r.failed == {})
    {
      hide FlagAt;
      var items := Listed(store);
      if !listOk {
        order := OrderExists(items);
        return false, order;
      }
      ok, order := FlagItems(cluster, items, faults);
    }

    method FlagItems(cluster: string, items: set<string>, faults: map<string, Outcome>)
      returns (ok: bool, ghost order: seq<string>)
      requires items <= store.Keys
      modifies this
      ensures IsOrder(order, items)
      ensures var r := RunUntilFailure(FlagLoop(cluster, faults), old(store), order);
              store == r.store && effects == old(effects) + r.effects && ok == (r.failed == {})
    {
      hide FlagAt, RunUntilFailure, Visit;
      ghost var loop := FlagLoop(cluster, faults);
      ghost var r := RunUntilFailure(loop, store, []);
      RunOfNone(loop, store);
      order, ok := [], true;
      var pending := items;
      while pending != {}
        invariant pending <= store.Keys
        invariant Distinct(order) && SetOf(order) !! pending && SetOf(order) + pending == items
        invariant r == RunUntilFailure(loop, old(store), order) && r.failed == {}
        invariant ok && At(r, old(effects))
        decreases pending
      {
        var obj :| obj in pending;
        ok := VisitUnlisted(cluster, faults, obj, r, old(effects));
        RunSnoc(loop, old(store), order, obj);
        r := Visit(loop, r, obj);
        OrderSnoc(order, obj);
        pending, order := pending - {obj}, order + [obj];
        if !ok {
          ghost var rest := OrderCompletes(items, order, pending);
          StoppedStays(loop, old(store), order, rest);
          order := order + rest;
          return;
        }
      }
    }

    /* ------------------------------- The pass ------------------------------- */

    method Reconcile(input: Input, f: PassFaults)
      returns (ok: bool, ghost owners: map<string, string>, ghost orders: Orders)
      modifies this
      ensures PassOrders(old(store), input, owners, orders, f)
      ensures var r := Pass(old(store), input, owners, orders, f);
              ok == r.ok && store == r.store && effects == old(effects) + r.effects
    {
      owners := map[];
      ghost var flags: seq<string> := [];
      orders := Orders([], [], [], []);
      if !input.ready {
        ok, flags := MarkClusterNotReady(input.cluster, f.flagListOk, f.flags);
        orders := Orders([], [], [], flags);
        return;
      }
      if !input.clientOk {
        return false, owners, orders;
      }
      if input.list.None? {
        ok, flags := MarkClusterNotReady(input.cluster, f.flagListOk, f.flags);
        orders := Orders([], [], [], flags);
        return;
      }
      ok, owners, orders := ReflectList(input, f);
    }

    method ReflectList(input: Input, f: PassFaults)
      returns (ok: bool, ghost own: map<string, string>, ghost orders: Orders)
      requires input.list.Some?
      modifies this
      ensures IsOwners(Bound(input.list.value), own)
      ensures ReflectOrders(old(store), ViewOf(input, own), input.list.value, orders, f)
      ensures var r := ReflectPass(old(store), ViewOf(input, own), input.list.value, orders, f);
              ok == r.ok && store == r.store && effects == old(effects) + r.effects
    {
      hide ObjectName, IsOwners, Bound, Dupes, RunUpserts, RunUntilFailure;
      var stubs := input.list.value;
      var bound, dupes := BindNodes(stubs);
      BindPartitions(stubs);
      var owners := ResolveCollisionOwners(bound);
      own := owners;
      var view := View(input.cluster, bound, owners, input.info);
      var failed;
      ghost var upserts: seq<string>, marks: seq<string>, prunes: seq<string>;
      failed, upserts := ReflectBound(view, f.upserts);
      var marked, pruned;
      marked, marks := MarkDuplicates(input.cluster, dupes, f.marks);
      pruned, prunes := PruneAbsent(input.cluster, bound.Keys, dupes, f.pruneListOk, f.prunes);
      orders := Orders(upserts, marks, prunes, []);
      ok := failed == {} && marked && pruned;
    }
  }

  method PresentNames(names: set<string>) returns (present: set<string>)
    ensures present == Present(names)
  {
    hide ObjectName;
    present := {};
    var pending := names;
    while pending != {}
      invariant pending <= names
      invariant present == Present(names - pending)
      decreases pending
    {
      var name :| name in pending;
      var obj := SanitizeNodeName(name);
      assert names - (pending - {name}) == (names - pending) + {name};
      PresentAdd(names - pending, name);
      pending, present := pending - {name}, present + {obj};
    }
    assert names - pending == names;
  }

  lemma PresentAdd(names: set<string>, name: string)
    ensures Present(names + {name}) == Present(names) + {ObjectName(name)}
  {
  }
}
