/** Whole uninterrupted passes over one resource. */
module PoolPass {
  import opened Api
  import opened PoolProtocol

  /* --------------------------------- Whole passes --------------------------------- */

  // How the calls of one pass end.
  datatype Faults = Faults(
    add: Outcome, resolve: Outcome, own: Outcome, list: Outcome, read: Outcome, upsert: Outcome,
    finalResolve: Outcome, delete: Outcome, drop: Outcome)
  {
    function At(p: Place): Outcome {
      match p
      case Adding(_) => add
      case Resolving(_) => resolve
      case Owning(_, _, _) => own
      case Listing(_, _) => list
      case Reading(_, _) => read
      case Upserting(_, _, _) => upsert
      case FinalResolving(_) => finalResolve
      case Deleting(_, _) => delete
      case Dropping(_, _) => drop
    }
  }

  const NO_FAULTS := Faults(Ok, Ok, Ok, Ok, Ok, Ok, Ok, Ok, Ok)

  function Finish(s: State, name: string, f: Faults, calls: nat): State
    decreases calls
  {
    if calls == 0 || name !in s.places then s
    else Finish(Advance(s, name, f.At(s.places[name]), true), name, f, calls - 1)
  }

  // An uninterrupted pass makes at most six calls after the first read.
  function Pass(s: State, name: string, f: Faults): State {
    Finish(Begin(s, name), name, f, 6)
  }

  /** A pass is a run of the machine. */
  lemma PassIsRun(s: State, name: string, f: Faults)
    ensures exists actions :: Run(s, actions) == Pass(s, name, f)
  {
    var actions := FinishIsRun(Begin(s, name), name, f, 6);
    assert Run(s, [Start(name)] + actions) == Pass(s, name, f) by {
      assert ([Start(name)] + actions)[1..] == actions;
    }
  }

  lemma {:induction false} FinishIsRun(s: State, name: string, f: Faults, calls: nat) returns (actions: seq<Action>)
    ensures Run(s, actions) == Finish(s, name, f, calls)
    decreases calls
  {
    actions := [];
    if calls != 0 && name in s.places {
      hide Advance;
      var a := Proceed(name, f.At(s.places[name]), true);
      var more := FinishIsRun(Step(s, a), name, f, calls - 1);
      actions := [a] + more;
      assert actions[1..] == more;
    }
  }

  // A resource with no pass over it, on a Ready cluster that stays.
  predicate Reconcilable(s: State, name: string, uid: nat) {
    && name in s.crs && name !in s.places
    && s.crs[name].key.cluster in s.clusters
    && s.clusters[s.crs[name].key.cluster] == Cluster(uid, true, false)
  }

  /** Finalizing with a Ready cluster removes the pool and the resource, whether or not the pool is
      still there: a crash between the delete and dropping the finalizer is recovered from. */
  lemma {:induction false} FinalPass(s: State, name: string, uid: nat)
    requires Reconcilable(s, name, uid) && s.crs[name].terminating && s.crs[name].finalizer
    ensures Pass(s, name, NO_FAULTS) ==
            s.(crs := s.crs - {name}, pools := s.pools - {s.crs[name].key}, deletes := s.deletes + [s.crs[name].key])
  {
    var cr := s.crs[name];
    var t := Begin(s, name);
    var u := FinalResolve(t, name, cr, Ok);
    var v := DeletePool(u, name, cr, Nomad(s, cr.key.cluster), Ok, true);
    assert Finish(t, name, NO_FAULTS, 6) == Finish(u, name, NO_FAULTS, 5);
    assert Finish(u, name, NO_FAULTS, 5) == Finish(v, name, NO_FAULTS, 4);
    assert v.places - {name} == s.places;
  }

  // The finalizer is taken, the owner set, and the pool as the spec says.
  predicate Registered(s: State, name: string, uid: nat)
    requires name in s.crs
  {
    var cr := s.crs[name];
    cr.finalizer && cr.owner == Some(uid) && cr.key in s.pools && s.pools[cr.key].body == cr.body
  }

  // What registering makes of a pool: managed fields from the spec, the others kept.
  function Desired(s: State, cr: Resource): Pool {
    if cr.key in s.pools then
      if s.pools[cr.key].body == cr.body then s.pools[cr.key] else s.pools[cr.key].(body := cr.body, registered := true)
    else Pool(cr.body, "", true)
  }

  lemma ConflictFrame(s: State, t: State, name: string, key: Key)
    requires t.crs.Keys == s.crs.Keys
    requires forall other :: other in s.crs && other != name ==> t.crs[other] == s.crs[other]
    ensures Conflict(t, name, key) <==> Conflict(s, name, key)
  {
    assert forall other :: other in s.crs ==> Rival(t.crs, other, name, key) == Rival(s.crs, other, name, key);
  }

  predicate UpToDate(s: State, cr: Resource) {
    cr.key in s.pools && s.pools[cr.key].body == cr.body
  }

  // Registering on a steady cluster, unless there is nothing to register.
  function Enrolled(s: State, cr: Resource): State {
    if UpToDate(s, cr) then s
    else s.(pools := s.pools[cr.key := Desired(s, cr)], exposed := s.exposed - {cr.key}, late := s.late - {cr.key})
  }

  // From the check for conflicts on.
  lemma FromListing(s: State, name: string, uid: nat, calls: nat)
    requires calls >= 3 && name in s.crs && name in s.places && s.crs[name].finalizer
    requires s.places[name] == Listing(s.crs[name], Nomad(s, s.crs[name].key.cluster))
    requires s.crs[name].key.cluster in s.clusters && s.clusters[s.crs[name].key.cluster] == Cluster(uid, true, false)
    requires !Builtin(s.crs[name].key) && !Conflict(s, name, s.crs[name].key)
    ensures Finish(s, name, NO_FAULTS, calls) == Leave(Enrolled(s, s.crs[name]), name)
  {
    hide Conflict, Builtin, Finish;
    var cr, nomad := s.crs[name], Nomad(s, s.crs[name].key.cluster);
    var t := Go(s, name, Reading(cr, nomad));
    FinishUnfold(s, name, NO_FAULTS, calls);
    FinishUnfold(t, name, NO_FAULTS, calls - 1);
    if UpToDate(s, cr) {
      assert t.places - {name} == s.places - {name};
      FinishUnfold(Leave(s, name), name, NO_FAULTS, calls - 2);
    } else {
      var u := Go(s, name, Upserting(cr, nomad, Desired(s, cr).unmanaged));
      assert ReadPool(t, name, cr, nomad, Ok, true) == u;
      FinishUnfold(u, name, NO_FAULTS, calls - 2);
      UpsertEnrols(s, u, name, nomad);
      FinishUnfold(Leave(Enrolled(s, cr), name), name, NO_FAULTS, calls - 3);
    }
  }

  lemma UpsertEnrols(s: State, u: State, name: string, nomad: nat)
    requires name in s.crs && s.crs[name].finalizer && !UpToDate(s, s.crs[name])
    requires Steady(s, s.crs[name].key.cluster) && nomad == Nomad(s, s.crs[name].key.cluster)
    requires u == Go(s, name, Upserting(s.crs[name], nomad, Desired(s, s.crs[name]).unmanaged))
    ensures Advance(u, name, Ok, true) == Leave(Enrolled(s, s.crs[name]), name)
  {
    assert Carrier(u, name, s.crs[name].key);
    assert u.places - {name} == s.places - {name};
  }

  // What an error-free pass over a live resource amounts to.
  predicate LiveEnd(s: State, t: State, name: string, uid: nat)
    requires name in s.crs
  {
    var cr := s.crs[name];
    && name in t.crs && t.crs == s.crs[name := t.crs[name]]
    && t.crs[name] == cr.(finalizer := true, owner := Some(uid), version := t.crs[name].version)
    && t.places == s.places - {name} && t.clusters == s.clusters && t.nomads == s.nomads && t.deletes == s.deletes
    && t.pools == s.pools[cr.key := Desired(s, cr)]
  }

  // From the reading of the cluster on.
  lemma FromResolving(s: State, name: string, uid: nat, calls: nat)
    requires calls >= 5 && name in s.crs && name in s.places && s.places[name] == Resolving(s.crs[name])
    requires s.crs[name].key.cluster in s.clusters && s.clusters[s.crs[name].key.cluster] == Cluster(uid, true, false)
    requires !Builtin(s.crs[name].key) && !Conflict(s, name, s.crs[name].key) && s.crs[name].finalizer
    ensures LiveEnd(s, Finish(s, name, NO_FAULTS, calls), name, uid)
  {
    hide Conflict, Builtin, Finish, LiveEnd;
    var cr := s.crs[name];
    var t := Resolve(s, name, cr, Ok);
    FinishUnfold(s, name, NO_FAULTS, calls);
    if cr.owner == Some(uid) {
      ConflictFrame(s, t, name, cr.key);
      FromListing(t, name, uid, calls - 1);
      EnrolledEnds(s, t, name, uid);
    } else {
      FinishUnfold(t, name, NO_FAULTS, calls - 1);
      var u := SetOwner(t, name, cr, Nomad(s, cr.key.cluster), uid, Ok);
      ConflictFrame(s, u, name, cr.key);
      FromListing(u, name, uid, calls - 2);
      EnrolledEnds(s, u, name, uid);
    }
  }

  // Enrolling with the finalizer and the owner set is all an error-free pass has left to do.
  lemma EnrolledEnds(s: State, t: State, name: string, uid: nat)
    requires name in s.crs && name in t.crs && name in s.places && t.crs == s.crs[name := t.crs[name]]
    requires t.crs[name] == s.crs[name].(finalizer := true, owner := Some(uid), version := t.crs[name].version)
    requires name in t.places && t.places == s.places[name := t.places[name]]
    requires t.clusters == s.clusters && t.nomads == s.nomads && t.deletes == s.deletes && t.pools == s.pools
    ensures LiveEnd(s, Leave(Enrolled(t, t.crs[name]), name), name, uid)
  {
    assert t.places - {name} == s.places - {name};
    assert UpToDate(s, s.crs[name]) ==> s.pools[s.crs[name].key := s.pools[s.crs[name].key]] == s.pools;
  }

  lemma FromAdding(s: State, name: string, uid: nat)
    requires name in s.crs && name in s.places && s.places[name] == Adding(s.crs[name])
    requires s.crs[name].key.cluster in s.clusters && s.clusters[s.crs[name].key.cluster] == Cluster(uid, true, false)
    requires !Builtin(s.crs[name].key) && !Conflict(s, name, s.crs[name].key)
    ensures LiveEnd(s, Finish(s, name, NO_FAULTS, 6), name, uid)
  {
    hide Conflict, Builtin, Finish, LiveEnd;
    var cr := s.crs[name];
    var t := AddFinalizer(s, name, cr, Ok);
    FinishUnfold(s, name, NO_FAULTS, 6);
    ConflictFrame(s, t, name, cr.key);
    FromResolving(t, name, uid, 5);
    LiveEndAfterAdding(s, t, Finish(t, name, NO_FAULTS, 5), name, uid);
  }

  lemma LiveEndAfterAdding(s: State, t: State, u: State, name: string, uid: nat)
    requires name in s.crs && t == AddFinalizer(s, name, s.crs[name], Ok) && LiveEnd(t, u, name, uid)
    ensures LiveEnd(s, u, name, uid)
  {
    assert t.places - {name} == s.places - {name};
  }

  lemma FromBegin(s: State, name: string, uid: nat)
    requires Reconcilable(s, name, uid) && !s.crs[name].terminating
    requires !Builtin(s.crs[name].key) && !Conflict(s, name, s.crs[name].key)
    ensures LiveEnd(s, Pass(s, name, NO_FAULTS), name, uid)
  {
    hide Conflict, Builtin;
    var cr := s.crs[name];
    var t := Begin(s, name);
    assert t.places - {name} == s.places;
    ConflictFrame(s, t, name, cr.key);
    if cr.finalizer {
      FromResolving(t, name, uid, 6);
    } else {
      FromAdding(t, name, uid);
    }
  }

  /** An error-free pass over a live resource takes the finalizer, sets the owner and registers the
      pool with the managed fields of the spec, keeping the unmanaged ones. */
  lemma {:induction false} LivePass(s: State, name: string, uid: nat)
    requires Reconcilable(s, name, uid) && !s.crs[name].terminating
    requires !Builtin(s.crs[name].key) && !Conflict(s, name, s.crs[name].key)
    ensures var cr := s.crs[name];
            var t := Pass(s, name, NO_FAULTS);
            && Reconcilable(t, name, uid) && Registered(t, name, uid) && !t.crs[name].terminating
            && !Conflict(t, name, cr.key)
            && t.crs[name].key == cr.key && t.crs[name].body == cr.body && t.crs - {name} == s.crs - {name}
            && t.pools == s.pools[cr.key := Desired(s, cr)] && t.places == s.places && t.deletes == s.deletes
  {
    hide Conflict, Builtin, Pass;
    FromBegin(s, name, uid);
    ConflictFrame(s, Pass(s, name, NO_FAULTS), name, s.crs[name].key);
  }

  /** A pass over a resource that is registered already writes nothing anywhere. */
  lemma {:induction false} QuietPass(s: State, name: string, uid: nat)
    requires Reconcilable(s, name, uid) && !s.crs[name].terminating && Registered(s, name, uid)
    requires !Builtin(s.crs[name].key) && !Conflict(s, name, s.crs[name].key)
    ensures Pass(s, name, NO_FAULTS) == s
  {
    hide Conflict, Builtin;
    var cr := s.crs[name];
    var t := Begin(s, name);
    assert t.places - {name} == s.places;
    var u := Resolve(t, name, cr, Ok);
    assert Finish(t, name, NO_FAULTS, 6) == Finish(u, name, NO_FAULTS, 5);
    assert u.places - {name} == s.places;
    ConflictFrame(s, u, name, cr.key);
    FromListing(u, name, uid, 5);
    assert s.pools[cr.key := s.pools[cr.key]] == s.pools;
  }

  /** Hence a second pass is quiet. */
  lemma {:induction false} SecondPassQuiet(s: State, name: string, uid: nat)
    requires Reconcilable(s, name, uid) && !s.crs[name].terminating
    requires !Builtin(s.crs[name].key) && !Conflict(s, name, s.crs[name].key)
    ensures Pass(Pass(s, name, NO_FAULTS), name, NO_FAULTS) == Pass(s, name, NO_FAULTS)
  {
    hide Pass, Conflict, Builtin;
    LivePass(s, name, uid);
    QuietPass(Pass(s, name, NO_FAULTS), name, uid);
  }

  lemma FinishUnfold(s: State, name: string, f: Faults, calls: nat)
    ensures Finish(s, name, f, calls) ==
            if calls == 0 || name !in s.places then s
            else Finish(Advance(s, name, f.At(s.places[name]), true), name, f, calls - 1)
  {
  }

  // A pass that is over after some calls is over after more.
  lemma {:induction false} MoreCalls(s: State, name: string, f: Faults, calls: nat, more: nat)
    requires calls <= more && name !in Finish(s, name, f, calls).places
    ensures Finish(s, name, f, more) == Finish(s, name, f, calls)
    decreases calls
  {
    hide Advance;
    if calls != 0 && name in s.places {
      MoreCalls(Advance(s, name, f.At(s.places[name]), true), name, f, calls - 1, more - 1);
    }
  }
}
