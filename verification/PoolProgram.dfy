/** The reconciler itself, proved to make exactly the steps of the protocol. */
module PoolProgram {
  import opened Api
  import opened PoolProtocol
  import opened PoolPass

  /* --------------------------------- The program --------------------------------- */

  // Siblings are compared by the cluster and pool names joined with a slash.
  function ClusterKey(key: Key): string { key.cluster + "/" + key.pool }

  /** Pool names hold no slash, so the joined string determines both names. */
  lemma ClusterKeyInjective(a: Key, b: Key)
    requires '/' !in a.pool && '/' !in b.pool && ClusterKey(a) == ClusterKey(b)
    ensures a == b
  {
    var s := ClusterKey(a);
    assert s[|a.cluster|] == '/' && s[|b.cluster|] == '/';
    assert forall i | |a.cluster| < i < |s| :: s[i] == a.pool[i - |a.cluster| - 1];
    assert forall i | |b.cluster| < i < |s| :: s[i] == b.pool[i - |b.cluster| - 1];
    assert |a.cluster| == |b.cluster|;
    assert a.cluster == s[..|a.cluster|] == b.cluster;
    assert a.pool == s[|a.cluster| + 1..] == b.pool;
  }

  /** Without that restriction it does not. */
  lemma ClusterKeyNeedsRestriction()
    ensures ClusterKey(Key("a", "b/c")) == ClusterKey(Key("a/b", "c"))
  {
    assert "a" + "/" + "b/c" == "a/b/c";
    assert "a/b" + "/" + "c" == "a/b/c";
  }

  class PoolReconciler {
    var crs: map<string, Resource>
    var clusters: map<string, Cluster>
    var pools: map<Key, Pool>
    var clock: nat
    var deletes: seq<Key>
    // The passes in progress, the Nomads behind the clusters, and what other passes left behind.
    ghost var places: map<string, Place>
    ghost var nomads: map<string, nat>
    ghost var inFlight: set<Request>
    ghost var late: set<Key>
    ghost var exposed: set<Key>
    ghost var incarnations: nat

    ghost function Now(): State
      reads this
    {
      State(crs, places, clusters, nomads, pools, inFlight, late, exposed, clock, incarnations, deletes)
    }

    ghost predicate PoolNamesValid()
      reads this
    {
      forall name :: name in crs ==> '/' !in crs[name].key.pool
    }

    ghost method End(name: string)
      modifies this`places
      ensures Now() == Leave(old(Now()), name)
    {
      places := places - {name};
    }

    // A write to the copy `cr`, unless the resource changed since it was read.
    method Update(name: string, cr: Resource, o: Outcome) returns (ok: bool)
      modifies this`crs, this`clock
      ensures o.Applied() && old(Unchanged(Now(), name, cr)) ==>
                Now() == Write(old(Now()), name, cr) && ok == (o == Ok)
      ensures !(o.Applied() && old(Unchanged(Now(), name, cr))) ==> Now() == old(Now()) && !ok
    {
      ok := false;
      if o != Refused && name in crs && crs[name].version == cr.version {
        clock := clock + 1;
        crs := crs[name := cr.(version := clock)];
        ok := o == Ok;
      }
    }

    /** Whether another live resource has the same cluster and pool name. */
    method HasPoolNameConflict(name: string, key: Key) returns (conflict: bool)
      requires PoolNamesValid() && '/' !in key.pool
      ensures conflict == Conflict(Now(), name, key)
    {
      var pending := crs.Keys;
      while pending != {}
        invariant pending <= crs.Keys
        invariant forall other :: other in crs.Keys - pending ==> !Rival(crs, other, name, key)
        decreases pending
      {
        var other :| other in pending;
        if other != name && !crs[other].terminating && ClusterKey(crs[other].key) == ClusterKey(key) {
          ClusterKeyInjective(crs[other].key, key);
          assert Rival(crs, other, name, key);
          return true;
        }
        pending := pending - {other};
      }
      conflict := false;
    }

    ghost predicate At(name: string, p: Place)
      reads this
    {
      name in places && places[name] == p
    }

    method AddFinalizer(name: string, cr: Resource, o: Outcome) returns (ok: bool, updated: Resource)
      requires At(name, Adding(cr)) && PoolNamesValid() && (name in crs ==> crs[name].key == cr.key)
      modifies this`crs, this`clock, this`places, this`late, this`exposed
      ensures Now() == old(Advance(Now(), name, o, true)) && PoolNamesValid()
      ensures if ok then At(name, Resolving(updated)) && updated.key == cr.key && Held(Now(), name, cr)
        else name !in places
    {
      ghost var taken := o.Applied() && Unchanged(Now(), name, cr);
      ok := Update(name, cr.(finalizer := true), o);
      if taken {
        ghost var t := Adopt(Now(), cr.key);
        late, exposed := t.late, t.exposed;
      }
      updated := cr;
      if ok {
        updated := crs[name];
        places := places[name := Resolving(updated)];
      } else {
        End(name);
      }
    }

    method ResolveCluster(name: string, cr: Resource, o: Outcome) returns (ok: bool, uid: nat)
      requires At(name, Resolving(cr))
      modifies this`places
      ensures Now() == old(Advance(Now(), name, o, true))
      ensures if ok then
          && At(name, if cr.owner == Some(uid) then Listing(cr, Nomad(Now(), cr.key.cluster))
                      else Owning(cr, Nomad(Now(), cr.key.cluster), uid))
        else name !in places
    {
      ok, uid := false, 0;
      if o == Ok && cr.key.cluster in clusters && clusters[cr.key.cluster].ready {
        ok, uid := true, clusters[cr.key.cluster].uid;
        ghost var nomad := Nomad(Now(), cr.key.cluster);
        places := places[name := if cr.owner == Some(uid) then Listing(cr, nomad) else Owning(cr, nomad, uid)];
      } else {
        End(name);
      }
    }

    method SetOwner(name: string, cr: Resource, ghost nomad: nat, uid: nat, o: Outcome)
      returns (ok: bool, updated: Resource)
      requires At(name, Owning(cr, nomad, uid)) && PoolNamesValid() && Held(Now(), name, cr)
      modifies this`crs, this`clock, this`places
      ensures Now() == old(Advance(Now(), name, o, true)) && PoolNamesValid()
      ensures if ok then At(name, Listing(updated, nomad)) && updated.key == cr.key else name !in places
    {
      ok := Update(name, cr.(owner := Some(uid)), o);
      updated := cr;
      if ok {
        updated := crs[name];
        places := places[name := Listing(updated, nomad)];
      } else {
        End(name);
      }
    }

    method CheckConflict(name: string, cr: Resource, ghost nomad: nat, o: Outcome) returns (ok: bool)
      requires At(name, Listing(cr, nomad)) && PoolNamesValid() && '/' !in cr.key.pool
      modifies this`places
      ensures Now() == old(Advance(Now(), name, o, true))
      ensures if ok then At(name, Reading(cr, nomad)) else name !in places
    {
      ok := false;
      if cr.key.pool != DEFAULT_POOL && cr.key.pool != ALL_POOL {
        var conflict := HasPoolNameConflict(name, cr.key);
        ok := o == Ok && !conflict;
      }
      if ok {
        places := places[name := Reading(cr, nomad)];
      } else {
        End(name);
      }
    }

    /** Read the pool; if it is not as the spec says, what to write. */
    method DesiredNodePool(name: string, cr: Resource, ghost nomad: nat, o: Outcome) returns (ok: bool, desired: Pool)
      requires At(name, Reading(cr, nomad))
      requires nomad == Nomad(Now(), cr.key.cluster)
      modifies this`places
      ensures Now() == old(Advance(Now(), name, o, true))
      ensures if ok then At(name, Upserting(cr, nomad, desired.unmanaged)) && desired == Desired(Now(), cr)
          && desired.body == cr.body && desired.registered
        else name !in places
    {
      ok, desired := o == Ok, Pool(cr.body, "", true);
      if ok && cr.key in pools {
        var existing := pools[cr.key];
        ok, desired := existing.body != cr.body, existing.(body := cr.body, registered := true);
      }
      if ok {
        places := places[name := Upserting(cr, nomad, desired.unmanaged)];
      } else {
        End(name);
      }
    }

    method UpsertNodePool(name: string, cr: Resource, ghost nomad: nat, desired: Pool, o: Outcome)
      requires At(name, Upserting(cr, nomad, desired.unmanaged)) && desired.body == cr.body && desired.registered
      requires nomad == Nomad(Now(), cr.key.cluster)
      modifies this`pools, this`places, this`late, this`exposed
      ensures Now() == old(Advance(Now(), name, o, true)) && name !in places
    {
      if o != Refused {
        ghost var t := Register(Now(), cr.key, desired);
        pools, late, exposed := pools[cr.key := desired], t.late, t.exposed;
      }
      End(name);
    }

    /** Register the pool: check for siblings, read, compare, write. */
    method ReconcilePool(name: string, cr: Resource, ghost nomad: nat, f: Faults)
      requires PoolNamesValid() && '/' !in cr.key.pool && At(name, Listing(cr, nomad))
      requires nomad == Nomad(Now(), cr.key.cluster)
      modifies this`pools, this`places, this`late, this`exposed
      ensures Now() == old(Finish(Now(), name, f, 3)) && name !in places
    {
      hide Advance;
      var ok := CheckConflict(name, cr, nomad, f.list);
      if ok {
        var write, desired := DesiredNodePool(name, cr, nomad, f.read);
        if write {
          UpsertNodePool(name, cr, nomad, desired, f.upsert);
        }
      }
    }

    method FinalResolve(name: string, cr: Resource, o: Outcome) returns (ok: bool, call: bool)
      requires At(name, FinalResolving(cr))
      modifies this`places
      ensures Now() == old(Advance(Now(), name, o, true))
      ensures if ok then At(name, if call then Deleting(cr, Nomad(Now(), cr.key.cluster)) else Dropping(cr, true))
        else name !in places
      ensures call ==> ok
    {
      ok, call := false, false;
      if o == Ok {
        if cr.key.cluster !in clusters || clusters[cr.key.cluster].deleting {
          places := places[name := Dropping(cr, true)];
          return true, false;
        }
        if clusters[cr.key.cluster].ready {
          places := places[name := Deleting(cr, Nomad(Now(), cr.key.cluster))];
          return true, true;
        }
      }
      End(name);
    }

    method DeleteNodePool(name: string, cr: Resource, o: Outcome) returns (ok: bool)
      requires At(name, Deleting(cr, Nomad(Now(), cr.key.cluster)))
      modifies this`pools, this`deletes, this`places
      ensures Now() == old(Advance(Now(), name, o, true))
      ensures if ok then At(name, Dropping(cr, false)) else name !in places
    {
      ok, deletes := o == Ok, deletes + [cr.key];
      if o != Refused {
        pools := pools - {cr.key};
      }
      if ok {
        places := places[name := Dropping(cr, false)];
      } else {
        End(name);
      }
    }

    method DropFinalizer(name: string, cr: Resource, ghost skipped: bool, o: Outcome)
      requires At(name, Dropping(cr, skipped))
      modifies this`crs, this`places
      ensures Now() == old(Advance(Now(), name, o, true)) && name !in places
    {
      if o != Refused && name in crs && crs[name].version == cr.version {
        crs := crs - {name};
      }
      End(name);
    }

    /** Delete the pool, unless the cluster is gone or going, and drop the finalizer. */
    method FinalizePool(name: string, cr: Resource, f: Faults)
      requires At(name, FinalResolving(cr))
      modifies this`pools, this`places, this`crs, this`deletes
      ensures Now() == old(Finish(Now(), name, f, 3)) && name !in places
    {
      hide Advance, Finish;
      ghost var s := Now();
      FinishUnfold(s, name, f, 3);
      var ok, call := FinalResolve(name, cr, f.finalResolve);
      ghost var left := 2;
      if call {
        FinishUnfold(Now(), name, f, 2);
        ok := DeleteNodePool(name, cr, f.delete);
        left := 1;
      }
      FinishUnfold(Now(), name, f, left);
      if ok {
        DropFinalizer(name, cr, !call, f.drop);
        FinishUnfold(Now(), name, f, left - 1);
      }
    }

    /** With the finalizer in place: resolve the cluster, set the owner, register the pool. */
    method ReconcileHeld(name: string, cr: Resource, f: Faults)
      requires PoolNamesValid() && '/' !in cr.key.pool && At(name, Resolving(cr)) && Held(Now(), name, cr)
      modifies this`crs, this`clock, this`pools, this`places, this`late, this`exposed
      ensures Now() == old(Finish(Now(), name, f, 5)) && name !in places
    {
      hide Advance, Finish;
      var np := cr;
      FinishUnfold(Now(), name, f, 5);
      var ok, uid := ResolveCluster(name, cr, f.resolve);
      ghost var nomad := Nomad(Now(), cr.key.cluster);
      FinishUnfold(Now(), name, f, 4);
      if !ok {
        return;
      }
      ghost var left := 4;
      if cr.owner != Some(uid) {
        ok, np := SetOwner(name, cr, nomad, uid, f.own);
        FinishUnfold(Now(), name, f, 3);
        if !ok {
          return;
        }
        left := 3;
      }
      ghost var s := Now();
      ReconcilePool(name, np, nomad, f);
      MoreCalls(s, name, f, 3, left);
    }

    /** One uninterrupted pass. */
    method Reconcile(name: string, f: Faults)
      requires PoolNamesValid() && name !in places
      modifies this
      ensures Now() == old(Pass(Now(), name, f)) && name !in places
    {
      hide Advance, Finish;
      FinishUnfold(Now(), name, f, 6);
      if name !in crs {
        return;
      }
      var cr := crs[name];
      if cr.terminating {
        if cr.finalizer {
          places := places[name := FinalResolving(cr)];
          ghost var s := Now();
          FinalizePool(name, cr, f);
          MoreCalls(s, name, f, 3, 6);
        }
        return;
      }
      ghost var left := 6;
      if !cr.finalizer {
        places := places[name := Adding(cr)];
        FinishUnfold(Now(), name, f, 6);
        var ok;
        ok, cr := AddFinalizer(name, cr, f.add);
        if !ok {
          FinishUnfold(Now(), name, f, 5);
          return;
        }
        left := 5;
      } else {
        places := places[name := Resolving(cr)];
      }
      ghost var s := Now();
      ReconcileHeld(name, cr, f);
      MoreCalls(s, name, f, 5, left);
    }
  }
}
