/** What the reflector sends to Nomad and writes into its objects, in the fields of what it read. */
module NodeCalls {
  import opened Api
  import opened NodeTypes
  import opened Sanitizer
  import opened Binding
  import opened KeyedLoop
  import opened Upsert
  import opened NodePass

  const ONE_HOUR := 60 * 60 * 1_000_000_000  // in nanoseconds

  // The drain a spec asks for: its own deadline, zero included, or one hour when it has none.
  predicate AskedFor(spec: DrainSpec, drain: Strategy) {
    && drain.ignoreSystemJobs == spec.ignoreSystemJobs
    && match spec.deadline
       case Some(d) => drain.deadline == d
       case None => drain.deadline == ONE_HOUR
  }

  // This generation's drain was started or adopted, and is running or has completed.
  predicate DrainDone(nn: Node, stub: Stub) {
    && nn.status.drainObservedGeneration == nn.generation
    && (stub.drain || (stub.eligibility == Ineligible && stub.lastDrain.Some? && stub.lastDrain.value.result == Complete))
  }

  function EligibilityAs(eligible: bool): Eligibility {
    if eligible then Eligible else Ineligible
  }

  /* --------------------------------- Calls --------------------------------- */

  /** With a drain wanted, one is started exactly on a node that is not draining and whose generation
      is not dealt with, and it is the one the spec asks for; a draining node is only looked at. */
  lemma DrainCalls(nn: Node, stub: Stub, info: InfoReply, f: UpsertFaults)
    requires nn.drain.Some?
    ensures var calls := Settle(nn, stub, info, f).effects;
            if DrainDone(nn, stub) then calls == []
            else if stub.drain then calls == [ReadInfo(stub.id)]
            else
              && |calls| == 1 && calls[0].UpdateDrain? && calls[0].id == stub.id
              && calls[0].spec.Some? && AskedFor(nn.drain.value, calls[0].spec.value)
              && !calls[0].markEligible && calls[0].applied == (f.write != Refused)
  {
  }

  /** With no drain wanted, a running one is cancelled, leaving the node as eligible as the spec says;
      otherwise the eligibility is written exactly when it differs. */
  lemma EligibilityCalls(nn: Node, stub: Stub, info: InfoReply, f: UpsertFaults)
    requires nn.drain.None?
    ensures Settle(nn, stub, info, f).effects ==
            if stub.drain then [UpdateDrain(stub.id, None, nn.eligible, f.write != Refused)]
            else if stub.eligibility == EligibilityAs(nn.eligible) then []
            else [SetEligibility(stub.id, nn.eligible, f.write != Refused)]
  {
  }

  /** Adopting a running drain that is not the one asked for is flagged; one that is, or that cannot
      be read, is not. */
  lemma AdoptionFlag(nn: Node, stub: Stub, info: InfoReply, f: UpsertFaults)
    requires nn.drain.Some? && !DrainDone(nn, stub) && stub.drain && f.persist != Refused
    ensures var flag := Settle(nn, stub, info, f).stored.status.drainPendingRestart;
            flag.Some?
            && if info.Running? && !AskedFor(nn.drain.value, info.strategy)
               then flag.value == Condition(true, DrainSpecEdited) else flag.value == Condition(false, DrainSpecInSync)
  {
  }

  /* --------------------------------- Objects --------------------------------- */

  /** When every call works the object mirrors the node, keeps its spec, and records its generation
      exactly when a drain was wanted and its generation is now dealt with. */
  lemma MirroredObject(nn: Node, stub: Stub, info: InfoReply, f: UpsertFaults)
    requires f.write == f.persist == f.mirror == Ok
    ensures var p := Settle(nn, stub, info, f);
            var m := p.stored;
            && p.ok
            && m.cluster == nn.cluster && m.labelled == nn.labelled && m.nodeName == nn.nodeName
            && m.eligible == nn.eligible && m.drain == nn.drain && m.generation == nn.generation
            && m.status.mirror.Some? && m.status.mirror.value.id == stub.id && m.status.mirror.value.health == stub.health
            && m.status.mirror.value.eligibility == stub.eligibility && m.status.mirror.value.draining == stub.drain
            && m.status.mirror.value.facts == stub.facts && m.status.mirror.value.observedGeneration == nn.generation
            && m.status.lastDrain == (if stub.lastDrain.Some? then stub.lastDrain else nn.status.lastDrain)
            && m.status.reconciled == Some(Condition(true, Reflected))
            && m.status.drainObservedGeneration
               == (if nn.drain.Some? then nn.generation else nn.status.drainObservedGeneration)
            && (nn.drain.None? || DrainDone(nn, stub) || !stub.drain ==>
                  m.status.drainPendingRestart == nn.status.drainPendingRestart)
  {
  }

  // What a node is minted with: eligible unless it is known not to be, and its running drain.
  predicate MintedFor(nn: Node, stub: Stub, cluster: string, info: InfoReply) {
    && nn.cluster == cluster && nn.labelled && nn.nodeName == stub.name && nn.generation == 1
    && nn.eligible == (stub.eligibility != Ineligible)
    && (nn.drain.Some? <==> stub.drain)
    && (stub.drain ==>
          if info.Running? then
            nn.drain.value.deadline == Some(info.strategy.deadline)
            && nn.drain.value.ignoreSystemJobs == info.strategy.ignoreSystemJobs
          else nn.drain.value.deadline == None && !nn.drain.value.ignoreSystemJobs)
  }

  /** The owner of a free object name gets an object seeded from what was observed. */
  lemma MintedObject(stub: Stub, view: View, obj: string)
    requires view.Owner(obj) == stub.name
    ensures var slot := UpsertAt(None, stub, view, NO_FAULTS, obj);
            && slot.ok && slot.node.Some? && MintedFor(slot.node.value, stub, view.cluster, view.Info(stub.id))
            && CreateNode(obj, stub.name) in slot.effects
            && forall e :: e in slot.effects ==> !e.DeleteNode?
  {
    var nn := Seeded(stub, view);
    var calls := if stub.drain then [ReadInfo(stub.id), CreateNode(obj, stub.name)] else [CreateNode(obj, stub.name)];
    MirroredObject(nn, stub, view.Info(stub.id), NO_FAULTS);
    SettleShape(nn, stub, view.Info(stub.id), NO_FAULTS);
    assert UpsertAt(None, stub, view, NO_FAULTS, obj).effects
           == calls + Settle(nn, stub, view.Info(stub.id), NO_FAULTS).effects;
    assert calls[|calls| - 1] == CreateNode(obj, stub.name);
  }

  /** An object whose recorded node is gone is deleted and minted again for the owner of its name. */
  lemma ReadoptedObject(cur: Node, stub: Stub, view: View, obj: string)
    requires cur.nodeName != stub.name && cur.nodeName !in view.bound && view.Owner(obj) == stub.name
    ensures var slot := UpsertAt(Some(cur), stub, view, NO_FAULTS, obj);
            && slot.ok && slot.node.Some? && MintedFor(slot.node.value, stub, view.cluster, view.Info(stub.id))
            && slot.effects == [DeleteNode(obj, cur.nodeName)] + UpsertAt(None, stub, view, NO_FAULTS, obj).effects
  {
    MintedObject(stub, view, obj);
  }

  /** Marking an ambiguous name changes the Reconciled condition of the object under its name, or
      creates an ineligible one that is bound to no node. */
  lemma MarkedObject(cur: Option<Node>, name: string, cluster: string, obj: string)
    ensures var slot := MarkAt(cur, name, cluster, NO_MARK_FAULTS, obj);
            && slot.ok && slot.node.Some?
            && slot.node.value.status.reconciled == Some(Condition(false, DuplicateNodeName))
            && if cur.Some? then slot.effects == [] && OnlyReconciledDiffers(slot.node.value, cur.value)
               else
                 && slot.effects == [CreateNode(obj, name)]
                 && slot.node.value.cluster == cluster && slot.node.value.labelled && slot.node.value.nodeName == name
                 && !slot.node.value.eligible && slot.node.value.drain == None && slot.node.value.generation == 1
                 && slot.node.value.status.mirror == None && slot.node.value.status.lastDrain == None
  {
  }

  predicate OnlyReconciledDiffers(a: Node, b: Node) {
    && a.cluster == b.cluster && a.labelled == b.labelled && a.nodeName == b.nodeName
    && a.eligible == b.eligible && a.drain == b.drain && a.generation == b.generation
    && a.status.mirror == b.status.mirror && a.status.lastDrain == b.status.lastDrain
    && a.status.drainObservedGeneration == b.status.drainObservedGeneration
    && a.status.drainPendingRestart == b.status.drainPendingRestart
  }

  /** Flagging changes the Reconciled condition of the cluster's own objects and leaves the mirrored
      status stale; objects of other clusters are left alone. */
  lemma FlaggedObject(cur: Node, cluster: string, o: Outcome)
    ensures var slot := FlagAt(Some(cur), cluster, o);
            && slot.effects == [] && slot.node.Some? && OnlyReconciledDiffers(slot.node.value, cur)
            && slot.node.value.status.reconciled
               == (if cur.cluster == cluster && o != Refused then Some(Condition(false, ClusterNotReady))
                   else cur.status.reconciled)
            && (slot.ok <==> cur.cluster != cluster || o == Ok)
  {
  }

  /** Pruning deletes an object exactly if it is the cluster's and its name is not present. */
  lemma PrunedObject(cur: Node, cluster: string, present: set<string>, obj: string)
    ensures var slot := PruneAt(Some(cur), cluster, present, Deleted, obj);
            && slot.ok
            && if cur.cluster == cluster && obj !in present
               then slot.node == None && slot.effects == [DeleteNode(obj, cur.nodeName)]
               else slot.node == Some(cur) && slot.effects == []
  {
  }

  /* --------------------------------- Owners --------------------------------- */

  // Text order: at the first difference, or as a proper prefix.
  ghost predicate TextBefore(a: string, b: string) {
    exists k: nat :: FirstDifference(a, b, k)
  }

  predicate FirstDifference(a: string, b: string, k: nat) {
    k <= |a| && k < |b| && a[..k] == b[..k] && (k < |a| ==> a[k] < b[k])
  }

  lemma {:induction false} TextOrder(a: string, b: string)
    ensures StringLess(a, b) <==> TextBefore(a, b)
  {
    if a == "" {
      if b != "" { assert FirstDifference(a, b, 0); }
    } else if b != "" {
      TextOrder(a[1..], b[1..]);
      if StringLess(a, b) {
        if a[0] < b[0] {
          assert FirstDifference(a, b, 0);
        } else {
          var k: nat :| FirstDifference(a[1..], b[1..], k);
          assert a[..k + 1] == [a[0]] + a[1..][..k] && b[..k + 1] == [b[0]] + b[1..][..k];
          assert FirstDifference(a, b, k + 1);
        }
      }
      if TextBefore(a, b) {
        var k: nat :| FirstDifference(a, b, k);
        if k > 0 {
          assert a[0] == a[..k][0] == b[..k][0] == b[0];
          assert a[1..][..k - 1] == a[..k][1..] && b[1..][..k - 1] == b[..k][1..];
          assert FirstDifference(a[1..], b[1..], k - 1);
        }
      }
    }
  }

  /** The owner of an object name is the bound node sanitizing to it that was created first, and among
      those created at the same index the one whose name comes first. */
  lemma {:induction false} OwnerIsFirst(bound: map<string, Stub>, owners: map<string, string>, obj: string, n: string)
    requires Keyed(bound) && IsOwners(bound, owners) && obj in owners
    requires n in bound && ObjectName(n) == obj && n != owners[obj]
    ensures var owner := owners[obj];
            && owner in bound && ObjectName(owner) == obj
            && (bound[owner].createIndex < bound[n].createIndex
                || (bound[owner].createIndex == bound[n].createIndex && TextBefore(owner, n)))
  {
    hide ObjectName;
    TextOrder(owners[obj], n);
  }
}
