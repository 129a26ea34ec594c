/** The loop that reflects every bound node, in whatever order Go's map iteration yields. */
module Reflect {
  import opened Api
  import opened NodeTypes
  import opened Sanitizer
  import opened Binding
  import opened KeyedLoop
  import opened Upsert

  type Faults = map<string, UpsertFaults>

  function FaultOf(faults: Faults, name: string): UpsertFaults {
    if name in faults then faults[name] else NO_FAULTS
  }

  function UpsertLoop(view: View, faults: Faults): Loop<Node, Effect> {
    Loop(name => ObjectName(name),
         (name, cur) =>
           if name in view.bound
           then UpsertAt(cur, view.bound[name], view, FaultOf(faults, name), ObjectName(name))
           else Slot(cur, [], true))
  }

  function RunUpserts(store: Store, view: View, order: seq<string>, faults: Faults): Result<Node, Effect> {
    Run(UpsertLoop(view, faults), store, order)
  }

  ghost predicate NoRaces(view: View, faults: Faults) {
    forall n :: n in view.bound ==> !FaultOf(faults, n).create.Raced?
  }

  function ActorFn(view: View): (string, Option<Node>) -> string {
    (obj, cur) => Actor(cur, view, obj)
  }

  function SkipFn(faults: Faults): string -> bool {
    name => FaultOf(faults, name).getOk
  }

  lemma {:induction false} UpsertsHaveSingleActor(view: View, faults: Faults)
    requires Keyed(view.bound) && NoRaces(view, faults)
    ensures SingleActor(UpsertLoop(view, faults), view.bound.Keys, ActorFn(view), SkipFn(faults))
  {
    forall n, cur: Option<Node> | n in view.bound.Keys && n != Actor(cur, view, ObjectName(n))
      ensures UpsertLoop(view, faults).step(n, cur) == Slot(cur, [], FaultOf(faults, n).getOk)
    {
      OthersSkip(cur, view.bound[n], view, FaultOf(faults, n), ObjectName(n));
    }
    forall n, cur: Option<Node> | n in view.bound.Keys && n == Actor(cur, view, ObjectName(n))
      ensures Actor(UpsertLoop(view, faults).step(n, cur).node, view, ObjectName(n)) == n
    {
      ActorStays(cur, view.bound[n], view, FaultOf(faults, n), ObjectName(n));
    }
  }

  /** Confluence: whatever order the map of bound nodes is walked in, and whichever of the nodes'
      calls fail, the loop ends in the same store, with the same multiset of calls and the same
      failures. */
  lemma {:induction false} ReflectConfluent(store: Store, view: View, a: seq<string>, b: seq<string>, faults: Faults)
    requires Keyed(view.bound) && NoRaces(view, faults)
    requires IsOrder(a, view.bound.Keys) && IsOrder(b, view.bound.Keys)
    ensures var ra, rb := RunUpserts(store, view, a, faults), RunUpserts(store, view, b, faults);
            && ra.store == rb.store
            && multiset(ra.effects) == multiset(rb.effects)
            && ra.failed == rb.failed
  {
    UpsertsHaveSingleActor(view, faults);
    Confluent(UpsertLoop(view, faults), view.bound.Keys, ActorFn(view), SkipFn(faults), store, a, b);
  }

  lemma ActingSlot(cur: Option<Node>, stub: Stub, view: View, f: UpsertFaults, obj: string)
    requires stub.name in view.bound && stub.name == Actor(cur, view, obj) && !f.create.Raced?
    ensures var slot := UpsertAt(cur, stub, view, f, obj);
            slot.ok ==> slot.node.Some? && slot.node.value.nodeName == stub.name
  {
    SettleShape(Seeded(stub, view), stub, view.Info(stub.id), f);
    if cur.Some? { SettleShape(cur.value, stub, view.Info(stub.id), f); }
  }

  /** After a loop without failures every owned object name holds an object: for the recorded node
      if that node is still bound, for the deterministic owner otherwise. */
  lemma {:induction false} OwnersAfterReflect(store: Store, view: View, order: seq<string>, faults: Faults, obj: string)
    requires view.Valid() && NoRaces(view, faults) && IsOrder(order, view.bound.Keys)
    requires RunUpserts(store, view, order, faults).failed == {}
    requires obj in view.owners
    ensures var after := Get(RunUpserts(store, view, order, faults).store, obj);
            && after.Some?
            && after.value.nodeName in view.bound
            && after.value.nodeName
               == if obj in store && store[obj].nodeName in view.bound then store[obj].nodeName
                  else view.owners[obj]
  {
    hide UpsertAt, ObjectName;
    var cur := Get(store, obj);
    var a := Actor(cur, view, obj);
    UpsertsHaveSingleActor(view, faults);
    ActedSlot(UpsertLoop(view, faults), view.bound.Keys, ActorFn(view), SkipFn(faults), store, order, obj);
    if ObjectName(a) == obj {
      ActingSlot(cur, view.bound[a], view, FaultOf(faults, a), obj);
    }
  }

  /** Object names no bound node sanitizes to are left alone. */
  lemma {:induction false} UnownedUntouched(store: Store, view: View, order: seq<string>, faults: Faults, obj: string)
    requires IsOrder(order, view.bound.Keys) && IsOwners(view.bound, view.owners)
    requires obj !in view.owners
    ensures Get(RunUpserts(store, view, order, faults).store, obj) == Get(store, obj)
  {
    forall n | n in order ensures UpsertLoop(view, faults).key(n) != obj {
      assert n in SetOf(order);
      assert ObjectName(n) in view.owners;
    }
    RunFrame(UpsertLoop(view, faults), store, order, obj);
  }
}
