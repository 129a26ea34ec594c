/** When a registered pool is left without a resource that will see to it, exactly. */
module PoolOrphans {
  import opened Api
  import opened PoolProtocol
  import opened PoolSafety

  predicate Kept(s: State, key: Key) {
    exists name :: name in s.crs && Keeper(s, name, key)
  }

  // A registered pool nobody will delete, as things stand.
  predicate Lost(s: State, key: Key) {
    IsRegistered(s, key) && !Kept(s, key)
  }

  // What a user sees of it: no resource of the pool's name carries the finalizer.
  predicate Orphaned(s: State, key: Key) {
    IsRegistered(s, key)
    && forall name :: name in s.crs ==> !(s.crs[name].key == key && s.crs[name].finalizer)
  }

  // The finalizer is dropped by a pass that skipped the delete because the cluster was gone or going.
  predicate SkipDrops(s: State, a: Action, name: string, key: Key) {
    && a.Proceed? && a.name == name && name in s.places && a.o.Applied()
    && s.places[name].Dropping? && s.places[name].skipped
    && s.places[name].cr.key == key && Unchanged(s, name, s.places[name].cr)
  }

  // That was the last resource to see to the pool, and the pool is still there.
  predicate SkipsLast(s: State, a: Action, key: Key) {
    && a.Proceed? && SkipDrops(s, a, a.name, key) && IsRegistered(s, key)
    && forall other :: other in s.crs && Keeper(s, other, key) ==> other == a.name
  }

  // A registration takes effect that was given up on, and nobody is left to see to the pool.
  predicate LandsUnkept(s: State, a: Action, key: Key) {
    a.Land? && a.r in s.inFlight && a.r.key == key && !IsRegistered(s, key) && !Kept(s, key)
  }

  /* --------------------------------- One step --------------------------------- */

  lemma OwnFinalizing(s: State, name: string, o: Outcome, hits: bool, key: Key)
    requires name in s.places && Keeper(s, name, key) && IsRegistered(Advance(s, name, o, hits), key)
    requires s.places[name].FinalResolving? || s.places[name].Deleting? || s.places[name].Dropping?
    requires s.places[name].cr.key == key && !SkipDrops(s, Proceed(name, o, hits), name, key)
    ensures Keeper(Advance(s, name, o, hits), name, key)
  {
    hide Steady;
  }

  lemma OwnReconciling(s: State, name: string, o: Outcome, hits: bool, key: Key)
    requires name in s.places && Keeper(s, name, key)
    requires s.places[name].Resolving? || s.places[name].Listing? || s.places[name].Reading? || s.places[name].Upserting?
    ensures Keeper(Advance(s, name, o, hits), name, key)
  {
    hide Conflict, Carried, Builtin, Steady, Hits;
  }

  lemma OwnKeeps(s: State, name: string, o: Outcome, hits: bool, key: Key)
    requires Sound(s) && name in s.places && Keeper(s, name, key) && IsRegistered(Advance(s, name, o, hits), key)
    requires !SkipDrops(s, Proceed(name, o, hits), name, key)
    ensures Keeper(Advance(s, name, o, hits), name, key)
  {
    PlaceSound(s, name);
    hide Sound, Advance, SkipDrops;
    if s.places[name].Adding? || s.places[name].Owning? {
      OwnWritesKeepCarrier(s, name, o, hits, key);
    } else if s.places[name].FinalResolving? || s.places[name].Deleting? || s.places[name].Dropping? {
      OwnFinalizing(s, name, o, hits, key);
    } else {
      OwnReconciling(s, name, o, hits, key);
    }
  }

  lemma KeeperStays(s: State, a: Action, name: string, key: Key)
    requires Sound(s) && Keeper(s, name, key) && IsRegistered(Step(s, a), key)
    requires !SkipDrops(s, a, name, key)
    ensures Keeper(Step(s, a), name, key)
  {
    hide Sound, UserStep, ClusterStep, Register, Advance, SkipDrops, IsRegistered;
    match a
    case Create(_, _, _) => UserKeepsCarrier(s, a, name, key);
    case Edit(_, _) => UserKeepsCarrier(s, a, name, key);
    case Delete(_) => UserKeepsCarrier(s, a, name, key);
    case ClusterCreated(_, _) => ClusterKeepsCarrier(s, a, name, key);
    case ClusterPhase(_, _) => ClusterKeepsCarrier(s, a, name, key);
    case ClusterDeleted(_) => ClusterKeepsCarrier(s, a, name, key);
    case ClusterGone(_) => ClusterKeepsCarrier(s, a, name, key);
    case Start(n) =>
    case Proceed(n, o, hits) =>
      if n in s.places {
        AdvanceApart(s, n, o, hits, name);
        if n == name {
          OwnKeeps(s, name, o, hits, key);
        }
      }
    case _ => NomadKeepsCarrier(s, a, name, key);
  }

  lemma UpsertRegisters(s: State, n: string, o: Outcome, hits: bool, key: Key)
    requires n in s.places && s.places[n].Upserting? && PlaceOk(s, n)
    requires IsRegistered(Advance(s, n, o, hits), key)
    ensures IsRegistered(s, key) || Keeper(Advance(s, n, o, hits), n, key)
  {
    hide Carried, Hits, Steady;
  }

  lemma AdvanceRegisters(s: State, n: string, o: Outcome, hits: bool, key: Key)
    requires Sound(s) && n in s.places && IsRegistered(Advance(s, n, o, hits), key)
    ensures IsRegistered(s, key) || Keeper(Advance(s, n, o, hits), n, key)
  {
    hide Sound, Hits, Upsert;
    PlaceSound(s, n);
    if s.places[n].Upserting? {
      UpsertRegisters(s, n, o, hits, key);
    } else if !s.places[n].Deleting? && !s.places[n].Adding? {
      hide Advance;
      OthersSamePools(s, n, o, hits);
    }
  }

  // A pool becomes registered by a pass that goes on keeping it, or by a late registration.
  lemma RegisteredBefore(s: State, a: Action, key: Key)
    requires Sound(s) && IsRegistered(Step(s, a), key)
    ensures IsRegistered(s, key) || Kept(Step(s, a), key) || (a.Land? && a.r in s.inFlight && a.r.key == key)
  {
    hide Sound, UserStep, Advance, Carried, Steady;
    match a
    case Proceed(n, o, hits) =>
      if n in s.places {
        AdvanceRegisters(s, n, o, hits, key);
      }
    case Create(_, _, _) => UserKeepsNomad(s, a);
    case Edit(_, _) => UserKeepsNomad(s, a);
    case Delete(_) => UserKeepsNomad(s, a);
    case _ =>
  }

  lemma SkipsLastLoses(s: State, a: Action, key: Key)
    requires Sound(s) && SkipsLast(s, a, key)
    ensures Kept(s, key) && Lost(Step(s, a), key)
  {
    var t := Step(s, a);
    PlaceSound(s, a.name);
    assert Keeper(s, a.name, key);
    forall other | other in t.crs
      ensures !Keeper(t, other, key)
    {
      AdvanceApart(s, a.name, a.o, a.hits, other);
    }
  }

  lemma LandKeeps(s: State, r: Request, key: Key)
    ensures Kept(Step(s, Land(r)), key) <==> Kept(s, key)
    ensures Carried(Step(s, Land(r)), key) <==> Carried(s, key)
  {
    var t := Step(s, Land(r));
    assert t.crs == s.crs && t.places == s.places && t.nomads == s.nomads;
    assert forall name :: name in s.crs ==> Keeper(t, name, key) == Keeper(s, name, key);
    assert forall name :: name in s.crs ==> Carrier(t, name, key) == Carrier(s, name, key);
  }

  lemma LandsUnkeptLoses(s: State, a: Action, key: Key)
    requires Sound(s) && LandsUnkept(s, a, key)
    ensures Lost(Step(s, a), key)
  {
    LandKeeps(s, a.r, key);
    assert RequestOk(a.r);
  }

  /** A step loses a pool if and only if it drops the finalizer of the last resource to see to the
      pool on the path that skips the delete, while the pool is still there, or a registration that
      was given up on takes effect with nobody left to see to the pool. */
  lemma {:induction false} LostExactly(s: State, a: Action, key: Key)
    requires Sound(s)
    ensures !Lost(s, key) && Lost(Step(s, a), key) <==> SkipsLast(s, a, key) || LandsUnkept(s, a, key)
  {
    hide Sound, Step, Keeper;
    if SkipsLast(s, a, key) {
      SkipsLastLoses(s, a, key);
    }
    if LandsUnkept(s, a, key) {
      LandsUnkeptLoses(s, a, key);
    }
    if !Lost(s, key) && Lost(Step(s, a), key) {
      if IsRegistered(s, key) {
        forall name | name in s.crs && Keeper(s, name, key)
          ensures SkipDrops(s, a, name, key)
        {
          LostByDrop(s, a, name, key);
        }
      } else {
        RegisteredBefore(s, a, key);
        if a.Land? { LandKeeps(s, a.r, key); }
      }
    }
  }

  lemma LostByDrop(s: State, a: Action, name: string, key: Key)
    requires Sound(s) && name in s.crs && Keeper(s, name, key) && Lost(Step(s, a), key)
    ensures SkipDrops(s, a, name, key)
  {
    hide Sound, Step, SkipDrops;
    if !SkipDrops(s, a, name, key) {
      KeeperStays(s, a, name, key);
      KeeperKeeps(Step(s, a), name, key);
    }
  }

  lemma KeeperKeeps(s: State, name: string, key: Key)
    ensures Keeper(s, name, key) ==> Kept(s, key)
  {
  }

  /* --------------------------------- Whole runs --------------------------------- */

  lemma RunSnoc(s: State, actions: seq<Action>)
    requires actions != []
    ensures Run(s, actions) == Step(Run(s, actions[..|actions| - 1]), actions[|actions| - 1])
  {
    var front, last := actions[..|actions| - 1], [actions[|actions| - 1]];
    assert actions == front + last && last[1..] == [];
    RunConcat(s, front, last);
  }

  /** A pool without a resource to carry it after a run got there by one of those two steps, and has
      been lost ever since. */
  lemma {:induction false} OrphanHasCause(actions: seq<Action>, key: Key) returns (i: nat)
    requires Lost(Run(INITIAL, actions), key)
    ensures i < |actions|
    ensures SkipsLast(Run(INITIAL, actions[..i]), actions[i], key)
            || LandsUnkept(Run(INITIAL, actions[..i]), actions[i], key)
    ensures forall k :: i < k <= |actions| ==> Lost(Run(INITIAL, actions[..k]), key)
  {
    hide Lost, SkipsLast, LandsUnkept, Inv, Sound, Step;
    if actions == [] {
      InitialNotLost(key);
    }
    var n := |actions| - 1;
    var front := actions[..n];
    assert actions[..|actions|] == actions;
    RunSnoc(INITIAL, actions);
    ReachableSound(front);
    LostExactly(Run(INITIAL, front), actions[n], key);
    if Lost(Run(INITIAL, front), key) {
      i := OrphanHasCause(front, key);
      assert forall k | 0 <= k <= n :: front[..k] == actions[..k];
    } else {
      i := n;
    }
  }

  lemma InitialNotLost(key: Key)
    ensures !Lost(Run(INITIAL, []), key)
  {
  }

  lemma ReachableSound(actions: seq<Action>)
    ensures Sound(Run(INITIAL, actions))
  {
    RunKeepsInv(INITIAL, actions);
  }

  /** What a user sees as an orphan is lost; so the same two causes are behind every orphan. */
  lemma OrphanIsLost(s: State, key: Key)
    requires Orphaned(s, key)
    ensures Lost(s, key)
  {
  }

  /* --------------------------------- Late registrations --------------------------------- */

  /** A late registration registers the pool, and the pool then has a carrier if and only if it had
      one before; that is exactly when the key is not recorded as late. */
  lemma {:induction false} LandingExact(s: State, r: Request)
    requires Sound(s) && r in s.inFlight
    ensures var t := Step(s, Land(r));
            && IsRegistered(t, r.key)
            && (Carried(t, r.key) <==> Carried(s, r.key))
            && (r.key in t.late <==> !Carried(s, r.key))
            && (r.key in t.exposed <==> !Steady(s, r.key.cluster))
  {
    LandKeeps(s, r, r.key);
    LandKeeps(s.(inFlight := s.inFlight - {r}), r, r.key);
    assert RequestOk(r);
    var mid := s.(inFlight := s.inFlight - {r});
    assert forall name :: name in s.crs ==> Carrier(mid, name, r.key) == Carrier(s, name, r.key);
  }

  /* --------------------------------- Clusters created again --------------------------------- */

  /** A cluster is gone and the last resource of one of its pools drops the finalizer. When the
      cluster is created again the pool is an orphan if and only if the pool was still there at the
      drop and the new cluster comes up on the data of the one before. */
  lemma {:induction false} RecreatedOrphan(s: State, name: string, o: Outcome, hits: bool, key: Key, retained: bool)
    requires Sound(s) && key.cluster !in s.clusters && key.cluster in s.nomads
    requires name in s.places && s.places[name].Dropping? && s.places[name].cr.key == key
    requires o.Applied() && Unchanged(s, name, s.places[name].cr)
    requires forall other :: other in s.crs && s.crs[other].key == key && s.crs[other].finalizer ==> other == name
    ensures var t := Step(Step(s, Proceed(name, o, hits)), ClusterCreated(key.cluster, retained));
            && Steady(t, key.cluster)
            && (Orphaned(t, key) <==> IsRegistered(s, key) && retained)
  {
    var u := Step(s, Proceed(name, o, hits));
    assert u.crs == s.crs - {name} && u.pools == s.pools && u.clusters == s.clusters && u.nomads == s.nomads;
  }
}
