/** The NomadCluster controller's phase machine: what a pass persists, and what every run keeps.

    The class is the program's control flow over the in-memory object and the persisted status;
    `Pass` is the same pass as a function, which the lemmas about runs use. */
module ClusterPhase {
  import opened Api

  datatype Phase = NoPhase | Pending | Bootstrapping | Ready | Degraded

  datatype Cond = Unset | Cond(holds: bool, reason: string)

  datatype Status = Status(
    phase: Phase, externalAddress: string, leader: string,
    reconciled: Cond, ready: Cond, quorum: Cond, external: Cond, acl: Cond, drift: Cond)

  const INITIAL := Status(NoPhase, "", "", Unset, Unset, Unset, Unset, Unset, Unset)

  predicate Provisioned(s: Status) {
    s.phase == Ready || s.phase == Degraded
  }

  datatype CertReply = CertError | CertNotReady | CertReady
  datatype AccessReply = AccessError | NotAssigned(reason: string) | Assigned(address: string)

  // What the cluster, the gateway or load balancer, Nomad and the API server answer in one pass.
  datatype Answers = Answers(
    gossipOk: bool, cert: CertReply, access: AccessReply, midWrite: Outcome, applyOk: bool,
    clientOk: bool, leader: string, bootstrapOk: bool, finalWrite: Outcome)

  // A resolved address is never empty.
  predicate Sound(a: Answers) {
    a.access.Assigned? ==> a.access.address != ""
  }

  // Fixed for a cluster, except that an Existing gateway may be swapped for a Managed one.
  datatype Spec = Spec(servers: nat, existingGateway: bool)

  datatype DriftEvent = DriftEvent(from: string, to: string, warning: bool)

  /* ------------------------------- Specification ------------------------------- */

  // What a pass persists and reports, and whether it ends without an error.
  datatype Result = Result(persisted: Status, events: seq<DriftEvent>, ok: bool)

  function Finish(nc: Status, before: Status, a: Answers, events: seq<DriftEvent>): Result {
    Result(if a.finalWrite.Applied() then nc else before, events, a.finalWrite == Ok)
  }

  predicate Drifts(from: string, to: string) {
    from != "" && from != to
  }

  function DriftCond(spec: Spec, from: string, to: string): Cond {
    if !Drifts(from, to) then Cond(false, "Stable")
    else Cond(true, if spec.servers == 1 then "AddressChanged" else "AddressChangedHA")
  }

  // A single server warns only while Ready; a replicated cluster always reports.
  function DriftEvents(spec: Spec, phase: Phase, from: string, to: string): seq<DriftEvent> {
    if Drifts(from, to) && (spec.servers != 1 || phase == Ready)
    then [DriftEvent(from, to, spec.servers == 1)] else []
  }

  function Resolve(spec: Spec, st: Status, address: string): Status {
    st.(externalAddress := address, external := Cond(true, "Assigned"),
        drift := DriftCond(spec, st.externalAddress, address))
  }

  function Bootstrap(nc: Status, before: Status, a: Answers, events: seq<DriftEvent>): Result {
    if !a.clientOk then Result(before, events, false)
    else if a.leader == "" then
      var lost := nc.(quorum := Cond(false, "NoLeader"));
      Finish(if nc.phase == Ready then lost.(phase := Degraded, ready := Cond(false, "QuorumLost")) else lost,
             before, a, events)
    else
      var led := nc.(quorum := Cond(true, "LeaderElected"), leader := a.leader);
      if !a.bootstrapOk then Finish(led.(acl := Cond(false, "BootstrapFailed")), before, a, events)
      else Finish(led.(acl := Cond(true, "Bootstrapped"), phase := Ready, ready := Cond(true, "Ready")), before, a, events)
  }

  function Pass(spec: Spec, st: Status, a: Answers): Result {
    var nc := st.(reconciled := Cond(true, "Accepted"));
    if !a.gossipOk || a.cert.CertError? then Result(st, [], false)
    else if a.cert.CertNotReady? then
      Finish(if Provisioned(st) then nc else nc.(phase := Pending, ready := Cond(false, "WaitingForCert")), st, a, [])
    else match a.access
      case AccessError => Result(st, [], false)
      case NotAssigned(reason) =>
        var why := if spec.existingGateway then reason else "WaitingForAddress";
        Finish(if Provisioned(st) then nc else nc.(phase := Pending, external := Cond(false, why)), st, a, [])
      case Assigned(address) =>
        var resolved := Resolve(spec, nc, address);
        var events := DriftEvents(spec, st.phase, st.externalAddress, address);
        if a.midWrite == Refused then Result(st, events, false)
        else if a.midWrite == ReplyLost || !a.applyOk then Result(resolved, events, false)
        else
          var started := if resolved.phase == Pending || resolved.phase == NoPhase
                         then resolved.(phase := Bootstrapping) else resolved;
          Bootstrap(started, resolved, a, events)
  }

  /* ------------------------------- The program ------------------------------- */

  class ClusterReconciler {
    var persisted: Status
    var nc: Status               // the object in memory
    var events: seq<DriftEvent>

    method UpdateStatus(o: Outcome) returns (ok: bool)
      modifies this`persisted
      ensures persisted == if o.Applied() then nc else old(persisted)
      ensures ok == (o == Ok)
    {
      if o.Applied() {
        persisted := nc;
      }
      ok := o == Ok;
    }

    // Existing mode stamps its own reason, but never on a provisioned cluster.
    method EnsureAccess(spec: Spec, access: AccessReply) returns (address: string, ready: bool, ok: bool)
      modifies this`nc
      ensures ok == !access.AccessError? && ready == access.Assigned?
      ensures ready ==> address == access.address
      ensures nc == if access.NotAssigned? && spec.existingGateway && !Provisioned(old(nc))
                    then old(nc).(external := Cond(false, access.reason)) else old(nc)
    {
      address, ready, ok := "", false, true;
      match access {
        case AccessError =>
          ok := false;
        case NotAssigned(reason) =>
          if spec.existingGateway && !(nc.phase == Ready || nc.phase == Degraded) {
            nc := nc.(external := Cond(false, reason));
          }
        case Assigned(a) =>
          address, ready := a, true;
      }
    }

    method CheckAddressDrift(spec: Spec, prev: string, cur: string)
      modifies this`nc, this`events
      ensures nc == old(nc).(drift := DriftCond(spec, prev, cur))
      ensures events == old(events) + DriftEvents(spec, old(nc).phase, prev, cur)
    {
      if prev == "" || prev == cur {
        nc := nc.(drift := Cond(false, "Stable"));
        return;
      }
      if spec.servers == 1 {
        nc := nc.(drift := Cond(true, "AddressChanged"));
        if nc.phase == Ready {
          events := events + [DriftEvent(prev, cur, true)];
        }
        return;
      }
      nc := nc.(drift := Cond(true, "AddressChangedHA"));
      events := events + [DriftEvent(prev, cur, false)];
    }

    method BootstrapAndReady(a: Answers) returns (ok: bool)
      modifies this`nc, this`persisted
      ensures var r := Bootstrap(old(nc), old(persisted), a, []); persisted == r.persisted && ok == r.ok
    {
      if !a.clientOk {
        return false;
      }
      if a.leader == "" {
        nc := nc.(quorum := Cond(false, "NoLeader"));
        if nc.phase == Ready {
          nc := nc.(phase := Degraded);
          nc := nc.(ready := Cond(false, "QuorumLost"));
        }
        ok := UpdateStatus(a.finalWrite);
        return;
      }
      nc := nc.(quorum := Cond(true, "LeaderElected"));
      nc := nc.(leader := a.leader);
      if !a.bootstrapOk {
        nc := nc.(acl := Cond(false, "BootstrapFailed"));
        ok := UpdateStatus(a.finalWrite);
        return;
      }
      nc := nc.(acl := Cond(true, "Bootstrapped"));
      nc := nc.(phase := Ready);
      nc := nc.(ready := Cond(true, "Ready"));
      ok := UpdateStatus(a.finalWrite);
    }

    method Reconcile(spec: Spec, a: Answers) returns (ok: bool)
      modifies this
      ensures var r := Pass(spec, old(persisted), a);
              persisted == r.persisted && events == old(events) + r.events && ok == r.ok
    {
      nc := persisted;
      nc := nc.(reconciled := Cond(true, "Accepted"));
      if !a.gossipOk || a.cert.CertError? {
        return false;
      }
      if a.cert.CertNotReady? {
        if !(nc.phase == Ready || nc.phase == Degraded) {
          nc := nc.(phase := Pending);
          nc := nc.(ready := Cond(false, "WaitingForCert"));
        }
        ok := UpdateStatus(a.finalWrite);
        return;
      }
      var address, ready;
      address, ready, ok := EnsureAccess(spec, a.access);
      if !ok {
        return;
      }
      if !ready {
        if !(nc.phase == Ready || nc.phase == Degraded) {
          nc := nc.(phase := Pending);
          if !spec.existingGateway {
            nc := nc.(external := Cond(false, "WaitingForAddress"));
          }
        }
        ok := UpdateStatus(a.finalWrite);
        return;
      }
      var prev := nc.externalAddress;
      nc := nc.(externalAddress := address);
      nc := nc.(external := Cond(true, "Assigned"));
      CheckAddressDrift(spec, prev, address);
      // Persist the address and the drift now, before the applies that may fail.
      ok := UpdateStatus(a.midWrite);
      if !ok || !a.applyOk {
        return false;
      }
      if nc.phase == Pending || nc.phase == NoPhase {
        nc := nc.(phase := Bootstrapping);
      }
      ok := BootstrapAndReady(a);
    }
  }

  /* ------------------------------- What every run keeps ------------------------------- */

  predicate Holds(c: Cond) {
    c.Cond? && c.holds
  }

  predicate Inv(s: Status) {
    && (s.phase == Ready <==> Holds(s.ready))
    && (s.phase == Ready ==> Holds(s.quorum))
    && (Provisioned(s) ==> Holds(s.external) && s.externalAddress != "")
  }

  // Where one pass may take the phase.
  predicate Moves(from: Status, to: Status, a: Answers) {
    && (Provisioned(from) ==> Provisioned(to))
    && (from.phase == Ready && to.phase != Ready ==> to.phase == Degraded && a.leader == "")
    && (from.phase != Ready && to.phase == Ready ==>
          a.cert.CertReady? && a.access.Assigned? && a.leader != "" && a.bootstrapOk && Holds(to.acl))
    && (to.phase == Degraded ==> Provisioned(from))
  }

  lemma PassInv(spec: Spec, st: Status, a: Answers)
    requires Inv(st) && Sound(a)
    ensures Inv(Pass(spec, st, a).persisted)
  {
    hide DriftCond, DriftEvents;
  }

  lemma PassMoves(spec: Spec, st: Status, a: Answers)
    ensures Moves(st, Pass(spec, st, a).persisted, a)
  {
    hide DriftCond, DriftEvents;
  }

  /** One pass keeps the invariant and moves the phase only as allowed. */
  lemma PassKeepsInv(spec: Spec, st: Status, a: Answers)
    requires Inv(st) && Sound(a)
    ensures Inv(Pass(spec, st, a).persisted)
    ensures Moves(st, Pass(spec, st, a).persisted, a)
  {
    PassInv(spec, st, a);
    PassMoves(spec, st, a);
  }

  // A step of a run: the answers, and the spec the pass ran under.
  datatype Step = Step(spec: Spec, a: Answers)

  function Run(st: Status, steps: seq<Step>): Result {
    if steps == [] then Result(st, [], true)
    else
      var before := Run(st, steps[..|steps| - 1]);
      var r := Pass(steps[|steps| - 1].spec, before.persisted, steps[|steps| - 1].a);
      Result(r.persisted, before.events + r.events, r.ok)
  }

  ghost predicate SoundRun(steps: seq<Step>) {
    forall i :: 0 <= i < |steps| ==> Sound(steps[i].a)
  }

  /** Over every run from a new cluster the persisted status is consistent: Ready exactly when the
      Ready condition is True, with quorum; provisioned only with an assigned, non-empty address. */
  lemma {:induction false} RunKeepsInv(steps: seq<Step>)
    requires SoundRun(steps)
    ensures Inv(Run(INITIAL, steps).persisted)
  {
    if steps != [] {
      RunKeepsInv(steps[..|steps| - 1]);
      PassKeepsInv(steps[|steps| - 1].spec, Run(INITIAL, steps[..|steps| - 1]).persisted, steps[|steps| - 1].a);
    }
  }

  /** Once provisioned, always provisioned: no blip of certificate, address or API server demotes a
      cluster that was Ready once. */
  lemma {:induction false} ProvisionedForever(steps: seq<Step>, n: nat)
    requires SoundRun(steps) && n <= |steps|
    requires Provisioned(Run(INITIAL, steps[..n]).persisted)
    ensures Provisioned(Run(INITIAL, steps).persisted)
  {
    if n < |steps| {
      var front := steps[..|steps| - 1];
      assert front[..n] == steps[..n];
      ProvisionedForever(front, n);
      RunKeepsInv(front);
      PassKeepsInv(steps[|steps| - 1].spec, Run(INITIAL, front).persisted, steps[|steps| - 1].a);
    } else {
      assert steps[..n] == steps;
    }
  }

  /** A cluster that is Ready after a run got there in a pass that saw a leader and a confirmed
      bootstrap, and has been Ready ever since. */
  lemma {:induction false} ReadyWasConfirmed(steps: seq<Step>) returns (n: nat)
    requires SoundRun(steps) && Run(INITIAL, steps).persisted.phase == Ready
    ensures n < |steps| && steps[n].a.leader != "" && steps[n].a.bootstrapOk
    ensures forall k :: n < k <= |steps| ==> Run(INITIAL, steps[..k]).persisted.phase == Ready
  {
    var front, last := steps[..|steps| - 1], steps[|steps| - 1];
    RunKeepsInv(front);
    PassKeepsInv(last.spec, Run(INITIAL, front).persisted, last.a);
    assert steps[..|steps|] == steps;
    if Run(INITIAL, front).persisted.phase == Ready {
      n := ReadyWasConfirmed(front);
      forall k | n < k <= |steps| ensures Run(INITIAL, steps[..k]).persisted.phase == Ready {
        if k < |steps| { assert front[..k] == steps[..k]; }
      }
    } else {
      n := |steps| - 1;
    }
  }

  /* ------------------------------- Drift events ------------------------------- */

  // A pass that got as far as resolving an address.
  predicate Resolves(a: Answers) {
    a.gossipOk && a.cert.CertReady? && a.access.Assigned?
  }

  // The addresses a run resolved, each with whether the cluster was Ready at the time.
  datatype Resolution = Resolution(address: string, ready: bool)

  function Resolutions(st: Status, steps: seq<Step>): seq<Resolution> {
    if steps == [] then []
    else
      var front, last := steps[..|steps| - 1], steps[|steps| - 1];
      Resolutions(st, front)
      + if Resolves(last.a)
        then [Resolution(last.a.access.address, Run(st, front).persisted.phase == Ready)] else []
  }

  // The last address of a list, or the one from before it.
  function LastAddress(first: string, seen: seq<Resolution>): string {
    if seen == [] then first else seen[|seen| - 1].address
  }

  // One event for each adjacent change; with a single server only for those seen while Ready.
  function AdjacentChanges(servers: nat, first: string, seen: seq<Resolution>): seq<DriftEvent> {
    if seen == [] then []
    else
      var front, last := seen[..|seen| - 1], seen[|seen| - 1];
      var prev := LastAddress(first, front);
      AdjacentChanges(servers, first, front)
      + if Drifts(prev, last.address) && (servers != 1 || last.ready)
        then [DriftEvent(prev, last.address, servers == 1)] else []
  }

  ghost predicate SameServers(steps: seq<Step>, servers: nat) {
    forall i :: 0 <= i < |steps| ==> steps[i].spec.servers == servers
  }

  ghost predicate AddressWritesLand(steps: seq<Step>) {
    forall i :: 0 <= i < |steps| ==> Resolves(steps[i].a) ==> steps[i].a.midWrite.Applied()
  }

  lemma PassAddress(spec: Spec, st: Status, a: Answers)
    requires Resolves(a) ==> a.midWrite.Applied()
    ensures var r := Pass(spec, st, a);
            && r.persisted.externalAddress == (if Resolves(a) then a.access.address else st.externalAddress)
            && r.events == if Resolves(a) then DriftEvents(spec, st.phase, st.externalAddress, a.access.address) else []
  {
  }

  lemma ChangesSnoc(servers: nat, first: string, seen: seq<Resolution>, r: Resolution)
    ensures AdjacentChanges(servers, first, seen + [r])
         == AdjacentChanges(servers, first, seen)
            + if Drifts(LastAddress(first, seen), r.address) && (servers != 1 || r.ready)
              then [DriftEvent(LastAddress(first, seen), r.address, servers == 1)] else []
  {
    assert (seen + [r])[..|seen|] == seen;
  }

  /** If the writes that persist a resolved address land, then whatever fails later in the passes,
      the events are exactly the adjacent changes of the resolved addresses, each reported once,
      and the persisted address is the last one resolved. */
  lemma {:induction false} DriftEventsExact(servers: nat, st: Status, steps: seq<Step>)
    requires SameServers(steps, servers) && AddressWritesLand(steps)
    ensures var seen := Resolutions(st, steps);
            && Run(st, steps).events == AdjacentChanges(servers, st.externalAddress, seen)
            && Run(st, steps).persisted.externalAddress == LastAddress(st.externalAddress, seen)
  {
    if steps != [] {
      var front, last := steps[..|steps| - 1], steps[|steps| - 1];
      DriftEventsExact(servers, st, front);
      var before, seen := Run(st, front), Resolutions(st, front);
      PassAddress(last.spec, before.persisted, last.a);
      if Resolves(last.a) {
        ChangesSnoc(servers, st.externalAddress, seen,
                    Resolution(last.a.access.address, before.persisted.phase == Ready));
      } else {
        assert seen + [] == seen && before.events + [] == before.events;
      }
    }
  }

  /** A refused address write makes the same change be reported again. */
  lemma {:induction false} RefusedWriteRepeatsEvent(st: Status)
    requires st.externalAddress == "a"
    ensures var a := Answers(true, CertReady, Assigned("b"), Refused, true, true, "", true, Ok);
            var step := Step(Spec(3, false), a);
            && Run(st, [step, step]).events == [DriftEvent("a", "b", false), DriftEvent("a", "b", false)]
            && AdjacentChanges(3, "a", Resolutions(st, [step, step])) == [DriftEvent("a", "b", false)]
  {
    var a := Answers(true, CertReady, Assigned("b"), Refused, true, true, "", true, Ok);
    var step := Step(Spec(3, false), a);
    var one, two := [step], [step, step];
    assert one[..0] == [] && two[..1] == one;
    assert Pass(step.spec, st, a) == Result(st, [DriftEvent("a", "b", false)], false);
    assert Run(st, one) == Result(st, [DriftEvent("a", "b", false)], false);
    var r := Resolution("b", st.phase == Ready);
    assert Resolutions(st, one) == [r] && Resolutions(st, two) == [r, r];
    assert [r, r][..1] == [r] && [r][..0] == [];
    assert AdjacentChanges(3, "a", [r]) == [DriftEvent("a", "b", false)];
  }
}
