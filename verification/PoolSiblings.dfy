/** What holds a pass back: a live sibling for the same pool, a cluster that is not Ready, a delete
    that Nomad refuses. */
module PoolSiblings {
  import opened Api
  import opened PoolProtocol
  import opened PoolSafety
  import opened PoolOrphans
  import opened PoolPass

  // Another resource, not being deleted, that names the same cluster and pool.
  predicate LiveSibling(s: State, name: string, other: string, key: Key) {
    && other in s.crs && other != name && !s.crs[other].terminating
    && s.crs[other].key.cluster == key.cluster && s.crs[other].key.pool == key.pool
  }

  /* --------------------------------- One pass --------------------------------- */

  // A pass that has not come past the check for siblings, and will not.
  predicate Blocked(s: State, name: string, other: string) {
    name in s.places ==>
      && (s.places[name].Adding? || s.places[name].Resolving? || s.places[name].Owning? || s.places[name].Listing?)
      && LiveSibling(s, name, other, s.places[name].cr.key)
  }

  lemma BlockedWrites(s: State, name: string, other: string, o: Outcome)
    requires name in s.places && Blocked(s, name, other) && (s.places[name].Adding? || s.places[name].Owning?)
    ensures var t := Advance(s, name, o, true);
            Blocked(t, name, other) && t.pools == s.pools && t.deletes == s.deletes
  {
  }

  lemma BlockedReads(s: State, name: string, other: string, o: Outcome)
    requires name in s.places && Blocked(s, name, other) && (s.places[name].Resolving? || s.places[name].Listing?)
    ensures var t := Advance(s, name, o, true);
            Blocked(t, name, other) && t.pools == s.pools && t.deletes == s.deletes
  {
    if s.places[name].Listing? {
      assert Rival(s.crs, other, name, s.places[name].cr.key);
    }
  }

  lemma {:induction false} BlockedFinish(s: State, name: string, other: string, f: Faults, calls: nat)
    requires Blocked(s, name, other)
    ensures var t := Finish(s, name, f, calls);
            t.pools == s.pools && t.deletes == s.deletes
    decreases calls
  {
    if calls > 0 && name in s.places {
      hide Advance;
      var o := f.At(s.places[name]);
      if s.places[name].Adding? || s.places[name].Owning? {
        BlockedWrites(s, name, other, o);
      } else {
        BlockedReads(s, name, other, o);
      }
      BlockedFinish(Advance(s, name, o, true), name, other, f, calls - 1);
    }
  }

  /** While another live resource names the same pool, a pass registers and deletes nothing, however
      its calls end. */
  lemma {:induction false} SiblingBlocksPass(s: State, name: string, other: string, f: Faults)
    requires name in s.crs && name !in s.places && !s.crs[name].terminating
    requires LiveSibling(s, name, other, s.crs[name].key)
    ensures var t := Pass(s, name, f);
            t.pools == s.pools && t.deletes == s.deletes
  {
    BlockedFinish(Begin(s, name), name, other, f, 6);
  }

  /* --------------------------------- Whole runs --------------------------------- */

  // A pass past the check for siblings, about to register the pool of this key.
  predicate PastCheck(s: State, name: string, key: Key) {
    name in s.places && (s.places[name].Reading? || s.places[name].Upserting?) && s.places[name].cr.key == key
  }

  // The step that passes the check: nobody else alive names the pool.
  ghost predicate ChecksAlone(s: State, a: Action, name: string, key: Key) {
    && a.Proceed? && a.name == name && a.o == Ok
    && name in s.places && s.places[name].Listing? && s.places[name].cr.key == key
    && forall other :: !LiveSibling(s, name, other, key)
  }

  lemma AdvancePastCheck(s: State, name: string, o: Outcome, hits: bool, key: Key)
    requires name in s.places && PastCheck(Advance(s, name, o, hits), name, key)
    ensures PastCheck(s, name, key) || ChecksAlone(s, Proceed(name, o, hits), name, key)
  {
    hide AddFinalizer, SetOwner, DropFinalizer, Upsert, DeletePool, Steady, Hits, Builtin, Conflict, LiveSibling;
    match s.places[name]
    case Adding(cr) => WritesLeadElsewhere(s, name, o, hits);
    case Owning(cr, nomad, uid) => WritesLeadElsewhere(s, name, o, hits);
    case Dropping(cr, _) => WritesLeadElsewhere(s, name, o, hits);
    case Upserting(_, _, _) => NomadCallsLeadElsewhere(s, name, o, hits);
    case Deleting(_, _) => NomadCallsLeadElsewhere(s, name, o, hits);
    case Listing(cr, nomad) =>
      forall other
        ensures LiveSibling(s, name, other, key) ==> Conflict(s, name, key)
      {
        SiblingConflicts(s, name, other, key);
      }
    case _ =>
  }

  lemma SiblingConflicts(s: State, name: string, other: string, key: Key)
    ensures LiveSibling(s, name, other, key) ==> Conflict(s, name, key)
  {
    assert LiveSibling(s, name, other, key) ==> Rival(s.crs, other, name, key);
  }

  lemma WritesLeadElsewhere(s: State, name: string, o: Outcome, hits: bool)
    requires name in s.places && (s.places[name].Adding? || s.places[name].Owning? || s.places[name].Dropping?)
    ensures var t := Advance(s, name, o, hits);
            name in t.places ==> t.places[name].Resolving? || t.places[name].Listing?
  {
    hide Steady;
  }

  lemma NomadCallsLeadElsewhere(s: State, name: string, o: Outcome, hits: bool)
    requires name in s.places && (s.places[name].Upserting? || s.places[name].Deleting?)
    ensures var t := Advance(s, name, o, hits);
            name in t.places ==> t.places[name].Dropping?
  {
    hide Carried, Steady, Hits;
  }

  lemma StepPastCheck(s: State, a: Action, name: string, key: Key)
    requires PastCheck(Step(s, a), name, key)
    ensures PastCheck(s, name, key) || ChecksAlone(s, a, name, key)
  {
    hide Advance, UserStep, Register, Builtin, Steady, ChecksAlone;
    match a
    case Proceed(n, o, hits) =>
      if n in s.places {
        if n == name {
          AdvancePastCheck(s, name, o, hits, key);
        } else {
          AdvanceApart(s, n, o, hits, name);
        }
      }
    case Create(_, _, _) => UserKeepsNomad(s, a);
    case Edit(_, _) => UserKeepsNomad(s, a);
    case Delete(_) => UserKeepsNomad(s, a);
    case Land(r) => LandKeepsPlaces(s, r);
    case _ =>
  }

  lemma LandKeepsPlaces(s: State, r: Request)
    ensures Step(s, Land(r)).places == s.places
  {
    hide Carried, Steady;
  }

  /** Whatever happened before, a registration is only ever sent by a pass that found no live sibling
      and has been under way since. */
  lemma {:induction false} RegistrationWasChecked(actions: seq<Action>, name: string, key: Key) returns (i: nat)
    requires PastCheck(Run(INITIAL, actions), name, key)
    ensures i < |actions| && ChecksAlone(Run(INITIAL, actions[..i]), actions[i], name, key)
    ensures forall k :: i < k <= |actions| ==> PastCheck(Run(INITIAL, actions[..k]), name, key)
  {
    hide PastCheck, ChecksAlone, Step;
    if actions == [] {
      NothingPastCheck(name, key);
    }
    var n := |actions| - 1;
    var front := actions[..n];
    assert actions[..|actions|] == actions;
    RunSnoc(INITIAL, actions);
    StepPastCheck(Run(INITIAL, front), actions[n], name, key);
    if PastCheck(Run(INITIAL, front), name, key) {
      i := RegistrationWasChecked(front, name, key);
      assert forall k | 0 <= k <= n :: front[..k] == actions[..k];
    } else {
      i := n;
    }
  }

  lemma NothingPastCheck(name: string, key: Key)
    ensures !PastCheck(Run(INITIAL, []), name, key)
  {
  }

  /* --------------------------------- Clusters that are not Ready --------------------------------- */

  // A pass that has not come past reading the cluster, and will not.
  predicate Waiting(s: State, name: string) {
    name in s.places ==>
      && (s.places[name].Adding? || s.places[name].Resolving?)
      && var cluster := s.places[name].cr.key.cluster;
      cluster in s.clusters ==> !s.clusters[cluster].ready
  }

  lemma {:induction false} WaitingFinish(s: State, name: string, f: Faults, calls: nat)
    requires Waiting(s, name)
    ensures var t := Finish(s, name, f, calls);
            t.pools == s.pools && t.deletes == s.deletes
    decreases calls
  {
    if calls > 0 && name in s.places {
      WaitingStep(s, name, f.At(s.places[name]));
      WaitingFinish(Advance(s, name, f.At(s.places[name]), true), name, f, calls - 1);
    }
  }

  lemma WaitingStep(s: State, name: string, o: Outcome)
    requires name in s.places && Waiting(s, name)
    ensures var t := Advance(s, name, o, true);
            Waiting(t, name) && t.pools == s.pools && t.deletes == s.deletes
  {
    hide Steady;
  }

  /** A pass over a live resource whose cluster is absent or not Ready registers and deletes nothing. */
  lemma {:induction false} NotReadyPass(s: State, name: string, f: Faults)
    requires name in s.crs && name !in s.places && !s.crs[name].terminating
    requires s.crs[name].key.cluster in s.clusters ==> !s.clusters[s.crs[name].key.cluster].ready
    ensures var t := Pass(s, name, f);
            t.pools == s.pools && t.deletes == s.deletes
  {
    WaitingFinish(Begin(s, name), name, f, 6);
  }

  /** A cluster that is there but not Ready is no reason to let go: finalizing changes nothing. */
  lemma BlipKeepsFinalizer(s: State, name: string, f: Faults)
    requires name in s.crs && name !in s.places && s.crs[name].terminating && s.crs[name].finalizer
    requires s.crs[name].key.cluster in s.clusters
    requires !s.clusters[s.crs[name].key.cluster].deleting && !s.clusters[s.crs[name].key.cluster].ready
    ensures Pass(s, name, f) == s
  {
    var t := Begin(s, name);
    FinishUnfold(t, name, f, 6);
    assert Leave(t, name).places == s.places;
    FinishUnfold(Leave(t, name), name, f, 5);
  }

  /** A delete that Nomad refuses, or whose answer is lost, keeps the resource and its finalizer. */
  lemma FailedDeleteKeepsFinalizer(s: State, name: string, uid: nat, f: Faults)
    requires Reconcilable(s, name, uid) && s.crs[name].terminating && s.crs[name].finalizer
    requires f.finalResolve == Ok && f.delete != Ok
    ensures var t := Pass(s, name, f);
            && t.crs == s.crs && t.deletes == s.deletes + [s.crs[name].key] && name !in t.places
            && t.pools == if f.delete == Refused then s.pools else s.pools - {s.crs[name].key}
  {
    var cr := s.crs[name];
    var t := Begin(s, name);
    FinishUnfold(t, name, f, 6);
    var u := FinalResolve(t, name, cr, Ok);
    FinishUnfold(u, name, f, 5);
    FinishUnfold(DeletePool(u, name, cr, Nomad(s, cr.key.cluster), f.delete, true), name, f, 4);
  }

  /** Finalizing with the cluster gone or going removes the resource and calls nothing. */
  lemma GonePass(s: State, name: string)
    requires name in s.crs && name !in s.places && s.crs[name].terminating && s.crs[name].finalizer
    requires s.crs[name].key.cluster in s.clusters ==> s.clusters[s.crs[name].key.cluster].deleting
    ensures Pass(s, name, NO_FAULTS) == s.(crs := s.crs - {name})
  {
    var cr := s.crs[name];
    var t := Begin(s, name);
    var u := FinalResolve(t, name, cr, Ok);
    FinishUnfold(t, name, NO_FAULTS, 6);
    FinishUnfold(u, name, NO_FAULTS, 5);
    assert u.places - {name} == s.places;
  }

  /** An error-free pass over a live resource, in the fields of the pool: the managed field is the
      spec's, the others are what they were, and a pool that had to be written is the operator's. */
  lemma LivePassPool(s: State, name: string, uid: nat)
    requires Reconcilable(s, name, uid) && !s.crs[name].terminating
    requires s.crs[name].key.pool != "default" && s.crs[name].key.pool != "all"
    requires forall other :: !LiveSibling(s, name, other, s.crs[name].key)
    ensures var key := s.crs[name].key;
            var t := Pass(s, name, NO_FAULTS);
            && key in t.pools && t.pools[key].body == s.crs[name].body
            && t.pools[key].unmanaged == (if key in s.pools then s.pools[key].unmanaged else "")
            && (key !in s.pools || s.pools[key].body != s.crs[name].body ==> t.pools[key].registered)
            && t.pools - {key} == s.pools - {key}
            && name in t.crs && t.crs[name].finalizer && t.crs[name].owner == Some(uid)
            && t.crs[name].body == s.crs[name].body && t.crs[name].key == key && t.deletes == s.deletes
  {
    forall other | other in s.crs
      ensures !Rival(s.crs, other, name, s.crs[name].key)
    {
      assert !LiveSibling(s, name, other, s.crs[name].key);
    }
    hide Pass;
    LivePass(s, name, uid);
  }
}
