/** What one pass of the cluster controller persists, field by field, from what it was answered. */
module ClusterOutcome {
  import opened Api
  import opened ClusterPhase

  // The certificate is there and an address was assigned.
  predicate Reaches(a: Answers) {
    a.gossipOk && a.cert == CertReady && a.access.Assigned?
  }

  // And the address was persisted, everything applied, and Nomad's client built.
  predicate Provisions(a: Answers) {
    Reaches(a) && a.midWrite == Ok && a.applyOk && a.clientOk
  }

  // The fields a pass decides on its way to Nomad, in what it persists.
  predicate AddressKept(st: Status, t: Status, address: string) {
    && t.externalAddress == address
    && t.external == Cond(true, "Assigned") && t.reconciled == Cond(true, "Accepted")
    && t.drift.Cond? && (t.drift.holds <==> st.externalAddress != "" && st.externalAddress != address)
  }

  /** A pass that sees a leader and a confirmed bootstrap ends Ready, whatever the status was before. */
  lemma GoodPassIsReady(spec: Spec, st: Status, a: Answers)
    requires Provisions(a) && a.leader != "" && a.bootstrapOk && a.finalWrite != Refused
    ensures var t := Pass(spec, st, a).persisted;
            && t.phase == Ready && t.leader == a.leader && AddressKept(st, t, a.access.address)
            && t.ready == Cond(true, "Ready") && t.quorum == Cond(true, "LeaderElected")
            && t.acl == Cond(true, "Bootstrapped")
    ensures Pass(spec, st, a).ok <==> a.finalWrite == Ok
  {
  }

  /** A failed bootstrap leaves the phase of a provisioned cluster, and any other in Bootstrapping. */
  lemma FailedBootstrap(spec: Spec, st: Status, a: Answers)
    requires Provisions(a) && a.leader != "" && !a.bootstrapOk && a.finalWrite != Refused
    ensures var t := Pass(spec, st, a).persisted;
            && t.phase == (if st.phase == Ready || st.phase == Degraded then st.phase else Bootstrapping)
            && t.leader == a.leader && AddressKept(st, t, a.access.address)
            && t.ready == st.ready && t.quorum == Cond(true, "LeaderElected") && t.acl == Cond(false, "BootstrapFailed")
  {
  }

  /** Without a leader a Ready cluster is Degraded, and no other cluster's phase goes back. */
  lemma NoLeader(spec: Spec, st: Status, a: Answers)
    requires Provisions(a) && a.leader == "" && a.finalWrite != Refused
    ensures var t := Pass(spec, st, a).persisted;
            && t.phase == (if st.phase == Ready || st.phase == Degraded then Degraded else Bootstrapping)
            && t.leader == st.leader && AddressKept(st, t, a.access.address)
            && t.quorum == Cond(false, "NoLeader") && t.acl == st.acl
            && t.ready == (if st.phase == Ready then Cond(false, "QuorumLost") else st.ready)
  {
  }

  /** A pass that stops between persisting the address and the end leaves exactly the address. */
  lemma StoppedAfterAddress(spec: Spec, st: Status, a: Answers)
    requires Reaches(a) && a.midWrite != Refused
    requires a.midWrite == ReplyLost || !a.applyOk || !a.clientOk || a.finalWrite == Refused
    ensures var r := Pass(spec, st, a);
            var t := r.persisted;
            && !r.ok && AddressKept(st, t, a.access.address) && t.leader == st.leader && t.ready == st.ready
            && t.quorum == st.quorum && t.acl == st.acl
            && (t.phase == st.phase || (st.phase in {NoPhase, Pending} && t.phase == Bootstrapping))
  {
  }

  /** While the certificate or the address is missing, a provisioned cluster keeps its phase and
      conditions and any other is Pending for the reason at hand. */
  lemma NotYetReachable(spec: Spec, st: Status, a: Answers)
    requires a.gossipOk && a.finalWrite != Refused
    requires a.cert == CertNotReady || (a.cert == CertReady && a.access.NotAssigned?)
    ensures var r := Pass(spec, st, a);
            var t := r.persisted;
            && r.events == [] && (r.ok <==> a.finalWrite == Ok)
            && t.externalAddress == st.externalAddress && t.leader == st.leader && t.quorum == st.quorum
            && t.acl == st.acl && t.drift == st.drift && t.reconciled == Cond(true, "Accepted")
            && if st.phase == Ready || st.phase == Degraded
               then t.phase == st.phase && t.ready == st.ready && t.external == st.external
               else
                 && t.phase == Pending
                 && t.ready == (if a.cert == CertNotReady then Cond(false, "WaitingForCert") else st.ready)
                 && t.external == (if a.cert == CertNotReady then st.external
                                   else if spec.existingGateway then Cond(false, a.access.reason)
                                   else Cond(false, "WaitingForAddress"))
  {
  }

  /** An error before the address is persisted leaves the status alone. */
  lemma EarlyError(spec: Spec, st: Status, a: Answers)
    requires !a.gossipOk || a.cert == CertError || (a.cert == CertReady && a.access.AccessError?)
             || (Reaches(a) && a.midWrite == Refused)
    ensures Pass(spec, st, a).persisted == st && !Pass(spec, st, a).ok
  {
  }

  /** The drift a pass reports and records: nothing at first or when the address is the same; a single
      server warns, and only while Ready; a replicated cluster always reports, without a warning. */
  lemma DriftReported(spec: Spec, st: Status, a: Answers)
    requires Reaches(a)
    ensures var from, to := st.externalAddress, a.access.address;
            var changed := from != "" && from != to;
            && Pass(spec, st, a).events == (if changed && (spec.servers != 1 || st.phase == Ready)
                                            then [DriftEvent(from, to, spec.servers == 1)] else [])
            && (a.midWrite != Refused && a.finalWrite != Refused ==>
                  Pass(spec, st, a).persisted.drift ==
                  if !changed then Cond(false, "Stable")
                  else Cond(true, if spec.servers == 1 then "AddressChanged" else "AddressChangedHA"))
  {
  }

  /** Recovery: however a run went, one such pass makes the cluster Ready. */
  lemma {:induction false} RecoversReady(steps: seq<Step>, good: Step)
    requires Provisions(good.a) && good.a.leader != "" && good.a.bootstrapOk && good.a.finalWrite != Refused
    ensures var t := Run(INITIAL, steps + [good]).persisted;
            t.phase == Ready && t.ready == Cond(true, "Ready") && t.leader == good.a.leader
  {
    assert (steps + [good])[..|steps|] == steps;
    GoodPassIsReady(good.spec, Run(INITIAL, steps).persisted, good.a);
  }
}
