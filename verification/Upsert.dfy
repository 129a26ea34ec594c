/** One bound Nomad node reflected into its NomadNode: adopt, re-adopt or mint the object, drive
    the desired state onto Nomad, mirror the observed state back.

    A pass touches the object of one name at a time, so what one upsert does is a function of the
    object found under its object name (`UpsertAt`). Every API call may be refused or lose its
    reply; a create may also lose a race to another client. */
module Upsert {
  import opened Api
  import opened NodeTypes
  import opened Binding
  import opened KeyedLoop

  // What stays fixed while one pass reflects its node list.
  datatype View = View(
    cluster: string, bound: map<string, Stub>, owners: map<string, string>, info: map<string, InfoReply>)
  {
    // A missing key reads as the empty string, as in a Go map.
    function Owner(obj: string): string {
      if obj in owners then owners[obj] else ""
    }

    function Info(id: string): InfoReply {
      if id in info then info[id] else InfoError
    }

    ghost predicate Valid() {
      Keyed(bound) && IsOwners(bound, owners)
    }
  }

  datatype CreateOutcome =
    | Created | CreateRefused | CreateReplyLost
    | Raced(other: Node, reread: bool)  // another client created it first; the re-read may fail

  datatype DeleteOutcome = Deleted | AlreadyGone | DeleteRefused | DeleteReplyLost

  datatype UpsertFaults = UpsertFaults(
    getOk: bool, delete: DeleteOutcome, ownerRefOk: bool, create: CreateOutcome,
    write: Outcome, persist: Outcome, mirror: Outcome)

  const NO_FAULTS := UpsertFaults(true, Deleted, true, Created, Ok, Ok, Ok)

  /* ------------------------------ Drain and eligibility ------------------------------ */

  const DEFAULT_DEADLINE := 3_600_000_000_000  // one hour, in nanoseconds

  function Wanted(drain: DrainSpec): Strategy {
    Strategy(if drain.deadline.Some? then drain.deadline.value else DEFAULT_DEADLINE, drain.ignoreSystemJobs)
  }

  function SeedDrain(info: InfoReply): DrainSpec {
    if info.Running? then DrainSpec(Some(info.strategy.deadline), info.strategy.ignoreSystemJobs)
    else DrainSpec(None, false)
  }

  predicate Diverged(drain: DrainSpec, info: InfoReply) {
    info.Running? && Wanted(drain) != info.strategy
  }

  predicate DrainHandled(nn: Node, stub: Stub) {
    && nn.status.drainObservedGeneration == nn.generation
    && (stub.drain
        || (stub.eligibility == Ineligible && stub.lastDrain.Some? && stub.lastDrain.value.result == Complete))
  }

  function Observed(nn: Node): Node {
    nn.(status := nn.status.(drainObservedGeneration := nn.generation))
  }

  function Adopted(nn: Node, info: InfoReply): Node
    requires nn.drain.Some?
  {
    var pending := if Diverged(nn.drain.value, info) then Condition(true, DrainSpecEdited)
                   else Condition(false, DrainSpecInSync);
    Observed(nn.(status := nn.status.(drainPendingRestart := Some(pending))))
  }

  // The object in memory, the object the API server holds, the calls made, and success.
  datatype Progress = Progress(node: Node, stored: Node, effects: seq<Effect>, ok: bool)

  function Persist(node: Node, before: Node, effects: seq<Effect>, o: Outcome): Progress {
    Progress(node, if o.Applied() then node else before, effects, o == Ok)
  }

  function Drive(nn: Node, stub: Stub, info: InfoReply, write: Outcome, persist: Outcome): Progress {
    if nn.drain.Some? then
      if DrainHandled(nn, stub) then Progress(nn, nn, [], true)
      else if stub.drain then
        Persist(Adopted(nn, info), nn, [ReadInfo(stub.id)], persist)
      else
        var calls := [UpdateDrain(stub.id, Some(Wanted(nn.drain.value)), false, write.Applied())];
        if write != Ok then Progress(nn, nn, calls, false)
        else Persist(Observed(nn), nn, calls, persist)
    else if stub.drain then
      Progress(nn, nn, [UpdateDrain(stub.id, None, nn.eligible, write.Applied())], write == Ok)
    else if stub.eligibility != (if nn.eligible then Eligible else Ineligible) then
      Progress(nn, nn, [SetEligibility(stub.id, nn.eligible, write.Applied())], write == Ok)
    else
      Progress(nn, nn, [], true)
  }

  function Mirrored(nn: Node, stub: Stub): Node {
    nn.(status := Status(
      Some(Mirror(stub.id, stub.health, stub.eligibility, stub.drain, stub.facts, nn.generation)),
      if stub.lastDrain.Some? then stub.lastDrain else nn.status.lastDrain,
      nn.status.drainObservedGeneration,
      Some(Condition(true, Reflected)),
      nn.status.drainPendingRestart))
  }

  // Drive, then mirror.
  function Settle(nn: Node, stub: Stub, info: InfoReply, f: UpsertFaults): Progress {
    var d := Drive(nn, stub, info, f.write, f.persist);
    if !d.ok then d else Persist(Mirrored(d.node, stub), d.stored, d.effects, f.mirror)
  }

  /* ---------------------------------- One upsert ---------------------------------- */

  // What an upsert leaves under its object name.
  type NodeSlot = Slot<Node, Effect>

  function Prefix(calls: seq<Effect>, slot: NodeSlot): NodeSlot {
    Slot(slot.node, calls + slot.effects, slot.ok)
  }

  function SettleSlot(nn: Node, stub: Stub, view: View, f: UpsertFaults): NodeSlot {
    var p := Settle(nn, stub, view.Info(stub.id), f);
    Slot(Some(p.stored), p.effects, p.ok)
  }

  function Seeded(stub: Stub, view: View): Node {
    Node(view.cluster, true, stub.name, stub.eligibility != Ineligible,
         if stub.drain then Some(SeedDrain(view.Info(stub.id))) else None, 1, EMPTY_STATUS)
  }

  // Creating an object where there is none; `ok` says whether the caller goes on with it.
  function CreateAt(node: Node, ownerRefOk: bool, create: CreateOutcome, obj: string): NodeSlot {
    if !ownerRefOk then Slot(None, [], false)
    else match create
      case CreateRefused => Slot(None, [], false)
      case CreateReplyLost => Slot(Some(node), [CreateNode(obj, node.nodeName)], false)
      case Created => Slot(Some(node), [CreateNode(obj, node.nodeName)], true)
      case Raced(other, reread) => Slot(Some(other), [], reread)
  }

  // Only the deterministic owner mints.
  function MintAt(stub: Stub, view: View, f: UpsertFaults, obj: string): NodeSlot {
    if view.Owner(obj) != stub.name then Slot(None, [], true)
    else
      var c := Prefix(if stub.drain then [ReadInfo(stub.id)] else [],
                      CreateAt(Seeded(stub, view), f.ownerRefOk, f.create, obj));
      if !c.ok then c else Prefix(c.effects, SettleSlot(c.node.value, stub, view, f))
  }

  function UpsertAt(cur: Option<Node>, stub: Stub, view: View, f: UpsertFaults, obj: string): NodeSlot {
    if !f.getOk then Slot(cur, [], false)
    else if cur.None? then MintAt(stub, view, f, obj)
    else if cur.value.nodeName == stub.name then SettleSlot(cur.value, stub, view, f)
    else if cur.value.nodeName in view.bound || view.Owner(obj) != stub.name then Slot(cur, [], true)
    else match f.delete
      case DeleteRefused => Slot(cur, [], false)
      case DeleteReplyLost => Slot(None, [DeleteNode(obj, cur.value.nodeName)], false)
      case AlreadyGone => MintAt(stub, view, f, obj)
      case Deleted => Prefix([DeleteNode(obj, cur.value.nodeName)], MintAt(stub, view, f, obj))
  }

  /* ------------------------------------ Facts ------------------------------------ */

  predicate SameSpec(a: Node, b: Node) {
    && a.cluster == b.cluster && a.labelled == b.labelled && a.nodeName == b.nodeName
    && a.eligible == b.eligible && a.drain == b.drain && a.generation == b.generation
  }

  lemma DriveShape(nn: Node, stub: Stub, info: InfoReply, write: Outcome, persist: Outcome)
    ensures var d := Drive(nn, stub, info, write, persist);
            && SameSpec(d.node, nn) && SameSpec(d.stored, nn)
            && |d.effects| <= 1
            && (d.effects != [] ==> d.effects[0].ReadInfo? || IsNomadWrite(d.effects[0]))
  {
    hide Diverged, Wanted, DrainHandled;
    if nn.drain.Some? {
      AdoptedShape(nn, info);
    }
  }

  lemma AdoptedShape(nn: Node, info: InfoReply)
    requires nn.drain.Some?
    ensures SameSpec(Adopted(nn, info), nn) && SameSpec(Observed(nn), nn)
  {
  }

  // The operator writes status only: reconciling an object never edits its spec.
  lemma SettleShape(nn: Node, stub: Stub, info: InfoReply, f: UpsertFaults)
    ensures var p := Settle(nn, stub, info, f);
            && SameSpec(p.node, nn) && SameSpec(p.stored, nn)
            && p.effects == Drive(nn, stub, info, f.write, f.persist).effects
            && |p.effects| <= 1
            && (p.effects != [] ==> p.effects[0].ReadInfo? || IsNomadWrite(p.effects[0]))
  {
    DriveShape(nn, stub, info, f.write, f.persist);
  }

  // The one bound name that acts on an object name in this pass: the recorded name while it is
  // bound, the owner otherwise.
  function Actor(cur: Option<Node>, view: View, obj: string): string {
    if cur.Some? && cur.value.nodeName in view.bound then cur.value.nodeName else view.Owner(obj)
  }

  /** Every other node colliding on the object name leaves it alone and calls nothing. */
  lemma OthersSkip(cur: Option<Node>, stub: Stub, view: View, f: UpsertFaults, obj: string)
    requires stub.name in view.bound && stub.name != Actor(cur, view, obj)
    ensures UpsertAt(cur, stub, view, f, obj) == Slot(cur, [], f.getOk)
  {
  }

  /** The acting node stays the acting one whatever its calls did, unless a create lost a race. */
  lemma ActorStays(cur: Option<Node>, stub: Stub, view: View, f: UpsertFaults, obj: string)
    requires stub.name in view.bound && stub.name == Actor(cur, view, obj)
    requires !f.create.Raced?
    ensures Actor(UpsertAt(cur, stub, view, f, obj).node, view, obj) == stub.name
  {
    SettleShape(Seeded(stub, view), stub, view.Info(stub.id), f);
    if cur.Some? { SettleShape(cur.value, stub, view.Info(stub.id), f); }
  }

  predicate ReadsOnly(effects: seq<Effect>) {
    forall e :: e in effects ==> !IsNomadWrite(e)
  }

  // The object asks for nothing the node does not already do.
  predicate Quiet(nn: Node, stub: Stub) {
    if stub.drain then nn.drain.Some?
    else nn.drain.None? && stub.eligibility == if nn.eligible then Eligible else Ineligible
  }

  /** Reflecting a quiet pair only reads from Nomad, and leaves it quiet, whatever fails. */
  lemma QuietReadsOnly(nn: Node, stub: Stub, info: InfoReply, f: UpsertFaults)
    requires Quiet(nn, stub)
    ensures ReadsOnly(Settle(nn, stub, info, f).effects)
    ensures Quiet(Settle(nn, stub, info, f).stored, stub)
  {
    SettleShape(nn, stub, info, f);
  }

  /** A node seen for the first time is quiet exactly when it is draining or its eligibility is
      one of the two the operator knows; only then does its first pass write nothing to Nomad. */
  lemma FirstSightReadsOnly(stub: Stub, view: View, obj: string)
    requires view.Owner(obj) == stub.name
    ensures Quiet(Seeded(stub, view), stub) <==> Known(stub)
    ensures ReadsOnly(UpsertAt(None, stub, view, NO_FAULTS, obj).effects) <==> Known(stub)
  {
    var node := Seeded(stub, view);
    var slot := UpsertAt(None, stub, view, NO_FAULTS, obj);
    SettleShape(node, stub, view.Info(stub.id), NO_FAULTS);
    if Quiet(node, stub) {
      QuietReadsOnly(node, stub, view.Info(stub.id), NO_FAULTS);
    } else {
      assert slot.effects == [CreateNode(obj, stub.name), SetEligibility(stub.id, true, true)];
      assert IsNomadWrite(slot.effects[1]);
    }
  }

  // The operator knows what the node does: it is draining, or its eligibility is one of two.
  predicate Known(stub: Stub) {
    stub.drain || stub.eligibility == Eligible || stub.eligibility == Ineligible
  }

  // One pass after another over the same node, with what each of them sees and how its calls end.
  datatype Sight = Sight(view: View, f: UpsertFaults)

  function Sightings(cur: Option<Node>, stub: Stub, sights: seq<Sight>, obj: string): (Option<Node>, seq<Effect>)
  {
    if sights == [] then (cur, [])
    else
      var before := Sightings(cur, stub, sights[..|sights| - 1], obj);
      var slot := UpsertAt(before.0, stub, sights[|sights| - 1].view, sights[|sights| - 1].f, obj);
      (slot.node, before.1 + slot.effects)
  }

  // No object yet, or a quiet one of the node.
  predicate StillQuiet(cur: Option<Node>, stub: Stub) {
    cur.Some? ==> cur.value.nodeName == stub.name && Quiet(cur.value, stub)
  }

  lemma MintQuiet(stub: Stub, view: View, f: UpsertFaults, obj: string)
    requires Known(stub) && !f.create.Raced?
    ensures StillQuiet(MintAt(stub, view, f, obj).node, stub) && ReadsOnly(MintAt(stub, view, f, obj).effects)
  {
    var node := Seeded(stub, view);
    SettleShape(node, stub, view.Info(stub.id), f);
    QuietReadsOnly(node, stub, view.Info(stub.id), f);
  }

  lemma SightQuiet(cur: Option<Node>, stub: Stub, view: View, f: UpsertFaults, obj: string)
    requires Known(stub) && !f.create.Raced? && StillQuiet(cur, stub)
    ensures var slot := UpsertAt(cur, stub, view, f, obj);
            StillQuiet(slot.node, stub) && ReadsOnly(slot.effects)
  {
    hide MintAt, Settle, Quiet;
    if cur.Some? {
      SettleShape(cur.value, stub, view.Info(stub.id), f);
      QuietReadsOnly(cur.value, stub, view.Info(stub.id), f);
    } else {
      MintQuiet(stub, view, f, obj);
    }
  }

  /** First sight is read-only for good: while the node and the spec stay as they are, no number of
      passes over a known node, minting included, writes to Nomad, whatever their calls answer and
      however they fail. FirstSightReadsOnly says that other nodes are written to at once. */
  lemma {:induction false} KnownNodeStaysUnwritten(stub: Stub, sights: seq<Sight>, obj: string)
    requires Known(stub) && forall i :: 0 <= i < |sights| ==> !sights[i].f.create.Raced?
    ensures var after := Sightings(None, stub, sights, obj);
            StillQuiet(after.0, stub) && ReadsOnly(after.1)
  {
    if sights != [] {
      var front, last := sights[..|sights| - 1], sights[|sights| - 1];
      KnownNodeStaysUnwritten(stub, front, obj);
      SightQuiet(Sightings(None, stub, front, obj).0, stub, last.view, last.f, obj);
    }
  }
}
