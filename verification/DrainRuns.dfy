/** Whole runs of one NomadNode against its Nomad node: how often a drain is issued, that a running
    drain is left alone, and that eligibility settles.

    The operator's steps are the passes of module Upsert. Around them users edit the spec, Nomad
    finishes drains, other people drain, cancel, toggle or re-register the node, and the API server
    and Nomad refuse calls or lose replies. */
module DrainRuns {
  import opened Api
  import opened NodeTypes
  import opened Upsert
  import NodeCalls

  // A Nomad node as far as drains go. `starts` counts the drains ever started on it.
  datatype NomadNode = NomadNode(
    id: string, drain: Option<Strategy>, eligible: bool, lastDrain: Option<LastDrain>, starts: nat)

  // A draining node is never eligible.
  predicate NodeOk(n: NomadNode) {
    n.drain.Some? ==> !n.eligible
  }

  function EligibilityOf(eligible: bool): Eligibility {
    if eligible then Eligible else Ineligible
  }

  function Snapshot(n: NomadNode, base: Stub): Stub {
    base.(id := n.id, drain := n.drain.Some?, eligibility := EligibilityOf(n.eligible), lastDrain := n.lastDrain)
  }

  function InfoOf(n: NomadNode, answers: bool): InfoReply {
    if !answers then InfoError else if n.drain.Some? then Running(n.drain.value) else NoStrategy
  }

  function Drained(result: DrainResult, at: int): Option<LastDrain> {
    Some(LastDrain(result, at, at))
  }

  // What an applied call does: a nil drain spec cancels, a non-nil one starts a drain and makes
  // the node ineligible.
  function ApplyCall(n: NomadNode, e: Effect, at: int): NomadNode {
    match e
      case UpdateDrain(_, spec, markEligible, true) =>
        if spec.Some? then
          n.(drain := spec, eligible := false, lastDrain := Drained(Draining, at), starts := n.starts + 1)
        else if n.drain.Some? then
          n.(drain := None, eligible := markEligible, lastDrain := Drained(Canceled, at))
        else n.(eligible := n.eligible || markEligible)
      case SetEligibility(_, eligible, true) => n.(eligible := eligible && n.drain.None?)
      case _ => n
  }

  // A pass makes at most one call.
  function ApplyCalls(n: NomadNode, effects: seq<Effect>, at: int): NomadNode {
    if effects == [] then n else ApplyCall(n, effects[0], at)
  }

  datatype Event =
    | Pass(f: UpsertFaults, answers: bool)
    | Edit(eligible: bool, drain: Option<DrainSpec>)
    | Remint(answers: bool)                         // the object is deleted and minted again
    | Finishes                                      // the running drain completes
    | DrainedElsewhere(spec: Strategy)              // drained by hand
    | CanceledElsewhere(markEligible: bool)         // the drain cancelled by hand
    | ToggledElsewhere(eligible: bool)              // eligibility set by hand
    | Reregistered(id: string, eligible: bool)      // the box comes back as a new node

  predicate Interferes(e: Event) {
    e.CanceledElsewhere? || e.ToggledElsewhere? || e.Reregistered?
  }

  // The object, its node, and what happened in the current spec generation: calls to start a drain,
  // those that Nomad accepted and those it refused, interferences that changed something, and
  // drains whose start was not recorded.
  datatype World = World(
    nn: Node, node: NomadNode, base: Stub, calls: nat, issued: nat, refused: nat, interfered: nat, lost: nat)

  predicate Asks(effects: seq<Effect>) {
    effects != [] && effects[0].UpdateDrain? && effects[0].spec.Some?
  }

  predicate Starts(effects: seq<Effect>) {
    Asks(effects) && effects[0].applied
  }

  predicate Complete(n: NomadNode) {
    n.drain.None? && !n.eligible && n.lastDrain.Some? && n.lastDrain.value.result == DrainResult.Complete
  }

  function Outcomes(w: World, f: UpsertFaults, answers: bool): Progress {
    Settle(w.nn, Snapshot(w.node, w.base), InfoOf(w.node, answers), f)
  }

  // The drain was started but the generation it was started for did not get stored.
  predicate Unrecorded(f: UpsertFaults) {
    f.write == ReplyLost || (f.write == Ok && f.persist == Refused)
  }

  function PassStep(w: World, f: UpsertFaults, answers: bool, at: int): World {
    var p := Outcomes(w, f, answers);
    var started := Starts(p.effects);
    w.(nn := p.stored,
       node := ApplyCalls(w.node, p.effects, at),
       calls := w.calls + if Asks(p.effects) then 1 else 0,
       issued := w.issued + if started then 1 else 0,
       refused := w.refused + if Asks(p.effects) && f.write == Refused then 1 else 0,
       lost := w.lost + if started && Unrecorded(f) then 1 else 0)
  }

  function NodeStep(n: NomadNode, e: Event, at: int): NomadNode {
    match e
      case Finishes => if n.drain.Some? then n.(drain := None, lastDrain := Drained(DrainResult.Complete, at)) else n
      case DrainedElsewhere(spec) =>
        n.(drain := Some(spec), eligible := false, lastDrain := Drained(Draining, at), starts := n.starts + 1)
      case CanceledElsewhere(mark) =>
        if n.drain.Some? then n.(drain := None, eligible := mark, lastDrain := Drained(Canceled, at)) else n
      case ToggledElsewhere(eligible) => if n.drain.None? then n.(eligible := eligible) else n
      case Reregistered(id, eligible) => NomadNode(id, None, eligible, None, n.starts)
      case _ => n
  }

  function Step(w: World, e: Event, at: int): World {
    match e
      case Pass(f, answers) => PassStep(w, f, answers, at)
      case Edit(eligible, drain) =>
        w.(nn := w.nn.(eligible := eligible, drain := drain, generation := w.nn.generation + 1),
           calls := 0, issued := 0, refused := 0, interfered := 0, lost := 0)
      case Remint(answers) =>
        var stub := Snapshot(w.node, w.base);
        w.(nn := Seeded(stub, View(w.nn.cluster, map[], map[], map[stub.id := InfoOf(w.node, answers)])),
           calls := 0, issued := 0, refused := 0, interfered := 0, lost := 0)
      case _ =>
        var node := NodeStep(w.node, e, at);
        w.(node := node, interfered := w.interfered + if Interferes(e) && node != w.node then 1 else 0)
  }

  function Run(w: World, events: seq<Event>): World {
    if events == [] then w
    else Step(Run(w, events[..|events| - 1]), events[|events| - 1], |events|)
  }

  /* ------------------------------ The issuance bound ------------------------------ */

  // One more drain will be issued even if nobody interferes.
  predicate Owed(w: World) {
    w.nn.drain.Some?
    && !(w.nn.status.drainObservedGeneration == w.nn.generation && (w.node.drain.Some? || Complete(w.node)))
  }

  predicate Credit(w: World) {
    && NodeOk(w.node)
    && w.nn.status.drainObservedGeneration <= w.nn.generation
    && w.issued + (if Owed(w) then 1 else 0) <= 1 + w.interfered + w.lost
    && w.calls == w.issued + w.refused
  }

  // What a pass does when a drain is wanted.
  lemma DrainPass(w: World, f: UpsertFaults, answers: bool, at: int)
    requires w.nn.drain.Some? && NodeOk(w.node)
    ensures var w' := PassStep(w, f, answers, at);
            && SameSpec(w'.nn, w.nn)
            && (w.node.drain.Some? || !Owed(w) ==> w'.node == w.node && w'.issued == w.issued && w'.lost == w.lost)
            && (w'.nn.status.drainObservedGeneration == w.nn.status.drainObservedGeneration
                || w'.nn.status.drainObservedGeneration == w.nn.generation)
            && (w'.issued > w.issued ==>
                  w'.node.drain.Some?
                  && (w'.lost > w.lost || w'.nn.status.drainObservedGeneration == w.nn.generation))
  {
    var stub := Snapshot(w.node, w.base);
    var info := InfoOf(w.node, answers);
    SettleShape(w.nn, stub, info, f);
    assert DrainHandled(w.nn, stub) <==> !Owed(w);
  }

  lemma CreditKept(w: World, e: Event, at: int)
    requires Credit(w)
    ensures Credit(Step(w, e, at))
  {
    match e
    case Pass(f, answers) =>
      if w.nn.drain.Some? {
        DrainPass(w, f, answers, at);
      } else {
        UndrainedPass(w, f, answers, at);
      }
    case _ =>
  }

  // What a pass does when no drain is wanted.
  lemma UndrainedPass(w: World, f: UpsertFaults, answers: bool, at: int)
    requires w.nn.drain.None? && NodeOk(w.node)
    ensures var w' := PassStep(w, f, answers, at);
            && SameSpec(w'.nn, w.nn) && NodeOk(w'.node)
            && w'.nn.status.drainObservedGeneration == w.nn.status.drainObservedGeneration
            && w'.issued == w.issued && w'.lost == w.lost
            && (Settled(w) ==> w'.node == w.node)
            && (f.write.Applied() ==> Settled(w'))
            && (!f.write.Applied() ==> w'.node == w.node)
  {
    SettleShape(w.nn, Snapshot(w.node, w.base), InfoOf(w.node, answers), f);
  }

  predicate Fresh(w: World) {
    NodeOk(w.node) && w.nn.status.drainObservedGeneration <= w.nn.generation
    && w.calls == w.issued == w.refused == w.interfered == w.lost == 0
  }

  /** Issuance bound: in every run, the drains started for the current spec generation are at most
      one, plus one for every interference and one for every start that was not recorded; and the
      calls to start one are at most that plus one for every call Nomad refused. */
  lemma {:induction false} DrainIssuanceBound(w: World, events: seq<Event>)
    requires Fresh(w)
    ensures var after := Run(w, events);
            Credit(after) && after.issued <= 1 + after.interfered + after.lost
            && after.calls <= 1 + after.interfered + after.lost + after.refused
  {
    if events != [] {
      DrainIssuanceBound(w, events[..|events| - 1]);
      CreditKept(Run(w, events[..|events| - 1]), events[|events| - 1], |events|);
    }
  }

  // A pass whose call to Nomad is refused.
  predicate RefusedPass(e: Event) {
    e.Pass? && e.f.write == Refused
  }

  /** The refused calls belong in the bound: without any interference or lost write, every pass whose
      call is refused makes one more call. */
  lemma {:induction false} RefusedCallsRepeat(w: World, events: seq<Event>)
    requires Fresh(w) && Owed(w) && w.node.drain.None?
    requires forall i :: 0 <= i < |events| ==> RefusedPass(events[i])
    ensures Run(w, events) == w.(calls := |events|, refused := |events|)
  {
    if events != [] {
      var front, last := events[..|events| - 1], events[|events| - 1];
      RefusedCallsRepeat(w, front);
      var v := Run(w, front);
      assert !DrainHandled(v.nn, Snapshot(v.node, v.base));
      assert PassStep(v, last.f, last.answers, |events|) == v.(calls := v.calls + 1, refused := v.refused + 1);
    }
  }

  /* ------------------------------ Which drain is running ------------------------------ */

  // The pass that started the drain the node is running, if a pass did.
  function Starter(w: World, events: seq<Event>): Option<nat> {
    if events == [] then None
    else
      var front, last := events[..|events| - 1], events[|events| - 1];
      var v := Run(w, front);
      if last.Pass? && Starts(Outcomes(v, last.f, last.answers).effects) then Some(|events| - 1)
      else if Run(w, events).node.drain.None? || last.DrainedElsewhere? then None
      else Starter(w, front)
  }

  lemma PassDrain(w: World, f: UpsertFaults, answers: bool, at: int)
    requires NodeOk(w.node)
    ensures var t := PassStep(w, f, answers, at);
            if Starts(Outcomes(w, f, answers).effects) then
              w.nn.drain.Some? && w.node.drain.None? && t.node.drain.Some?
              && NodeCalls.AskedFor(w.nn.drain.value, t.node.drain.value)
            else t.node.drain == w.node.drain || t.node.drain.None?
    ensures NodeOk(PassStep(w, f, answers, at).node)
  {
    var stub, info := Snapshot(w.node, w.base), InfoOf(w.node, answers);
    if w.nn.drain.Some? {
      NodeCalls.DrainCalls(w.nn, stub, info, f);
    } else {
      NodeCalls.EligibilityCalls(w.nn, stub, info, f);
    }
  }

  /** A drain the operator started is the one the spec asked for when it was started: its deadline,
      or one hour if it has none, and its choice about system jobs. */
  lemma {:induction false} StartedDrainIsAskedFor(w: World, events: seq<Event>)
    requires NodeOk(w.node)
    ensures NodeOk(Run(w, events).node)
    ensures Starter(w, events).Some? ==>
              var i := Starter(w, events).value;
              && i < |events| && events[i].Pass?
              && var before := Run(w, events[..i]);
              && before.nn.drain.Some? && before.node.drain.None? && Run(w, events).node.drain.Some?
              && NodeCalls.AskedFor(before.nn.drain.value, Run(w, events).node.drain.value)
  {
    if events != [] {
      hide PassStep, Outcomes, NodeCalls.AskedFor;
      var front, last := events[..|events| - 1], events[|events| - 1];
      StartedDrainIsAskedFor(w, front);
      var v := Run(w, front);
      if last.Pass? {
        PassDrain(v, last.f, last.answers, |events|);
      }
      if Starter(w, front).Some? {
        var i := Starter(w, front).value;
        assert front[..i] == events[..i];
      }
    }
  }

  /* ----------------------------- Running drains are left alone ----------------------------- */

  // Passes, and edits that still ask for a drain.
  predicate KeepsAsking(e: Event) {
    e.Pass? || (e.Edit? && e.drain.Some?)
  }

  /** A running deadline never slides: as long as a drain is asked for and nobody else touches the
      node, any number of passes and edits leaves the draining node exactly as it is. */
  lemma {:induction false} RunningDrainUntouched(w: World, events: seq<Event>)
    requires NodeOk(w.node) && w.node.drain.Some? && w.nn.drain.Some?
    requires forall i :: 0 <= i < |events| ==> KeepsAsking(events[i])
    ensures Run(w, events).node == w.node && Run(w, events).nn.drain.Some?
  {
    if events != [] {
      var front, last := events[..|events| - 1], events[|events| - 1];
      RunningDrainUntouched(w, front);
      var v := Run(w, front);
      if last.Pass? {
        DrainPass(v, last.f, last.answers, |events|);
      }
    }
  }

  /** No drain is ever issued to a node seen as draining. */
  lemma NeverReissued(nn: Node, stub: Stub, info: InfoReply, f: UpsertFaults)
    requires stub.drain
    ensures forall e :: e in Settle(nn, stub, info, f).effects ==> !(e.UpdateDrain? && e.spec.Some?)
  {
    SettleShape(nn, stub, info, f);
  }

  /* ------------------------------- Eligibility settles ------------------------------- */

  predicate Settled(w: World) {
    w.nn.drain.None? && w.node.drain.None? && w.node.eligible == w.nn.eligible
  }

  predicate Undisturbed(e: Event) {
    e.Pass? || (e.Edit? && e.drain.None?)
  }

  predicate Writes(effects: seq<Effect>) {
    effects != [] && IsNomadWrite(effects[0]) && effects[0].applied
  }

  // The writes Nomad accepted, and the edits, over a run.
  function Accepted(w: World, events: seq<Event>): nat {
    if events == [] then 0
    else
      var front, last := events[..|events| - 1], events[|events| - 1];
      Accepted(w, front)
      + if last.Pass? && Writes(Outcomes(Run(w, front), last.f, last.answers).effects) then 1 else 0
  }

  function Edits(events: seq<Event>): nat {
    if events == [] then 0
    else Edits(events[..|events| - 1]) + if events[|events| - 1].Edit? then 1 else 0
  }

  lemma QuietWhenSettled(w: World, f: UpsertFaults, answers: bool)
    requires w.nn.drain.None? && NodeOk(w.node)
    ensures Writes(Outcomes(w, f, answers).effects) <==> !Settled(w) && f.write.Applied()
  {
    SettleShape(w.nn, Snapshot(w.node, w.base), InfoOf(w.node, answers), f);
  }

  /** With no drain wanted and nobody else at work, Nomad accepts at most one write per spec edit
      (and one for the state found at the start), and a settled node stays settled. */
  lemma {:induction false} EligibilityWritesBound(w: World, events: seq<Event>)
    requires NodeOk(w.node) && w.nn.drain.None?
    requires forall i :: 0 <= i < |events| ==> Undisturbed(events[i])
    ensures var after := Run(w, events);
            && NodeOk(after.node) && after.nn.drain.None?
            && Accepted(w, events) + (if Settled(after) then 0 else 1)
               <= Edits(events) + (if Settled(w) then 0 else 1)
  {
    if events != [] {
      var front, last := events[..|events| - 1], events[|events| - 1];
      EligibilityWritesBound(w, front);
      var v := Run(w, front);
      if last.Pass? {
        UndrainedPass(v, last.f, last.answers, |events|);
        QuietWhenSettled(v, last.f, last.answers);
      }
    }
  }

  /** One pass whose Nomad call is not refused settles the node: not draining, and eligible exactly
      as the spec says. */
  lemma PassSettles(w: World, f: UpsertFaults, answers: bool, at: int)
    requires NodeOk(w.node) && w.nn.drain.None? && f.write.Applied()
    ensures Settled(PassStep(w, f, answers, at))
  {
    UndrainedPass(w, f, answers, at);
  }
}
