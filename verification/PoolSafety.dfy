/** No registered pool is orphaned, in any interleaving. */
module PoolSafety {
  import opened Api
  import opened PoolProtocol

  /* --------------------------------- Invariant --------------------------------- */

  // The copy a pass works on is what is stored, unless the resource changed since it was read.
  predicate Fresh(s: State, name: string, cr: Resource) {
    cr.version <= s.clock && (Unchanged(s, name, cr) ==> s.crs[name] == cr)
  }

  predicate PlaceOk(s: State, name: string)
    requires name in s.places
  {
    match s.places[name]
    case Adding(cr) => Fresh(s, name, cr) && !cr.terminating
    case Owning(cr, _, _) => Held(s, name, cr) && Fresh(s, name, cr) && !cr.terminating
    case Resolving(cr) => Held(s, name, cr) && Fresh(s, name, cr) && !cr.terminating
    case Listing(cr, _) => Held(s, name, cr)
    case Reading(cr, _) => Held(s, name, cr) && !Builtin(cr.key)
    case Upserting(cr, _, _) => Held(s, name, cr) && !Builtin(cr.key)
    case FinalResolving(cr) => Held(s, name, cr)
    case Deleting(cr, _) => Held(s, name, cr)
    case Dropping(cr, _) => Held(s, name, cr)
  }

  // A registered pool that nothing excuses from having a carrier.
  predicate Owed(s: State, key: Key) {
    IsRegistered(s, key) && key !in s.exposed && key !in s.late
  }

  predicate PoolOk(s: State, key: Key) {
    IsRegistered(s, key) ==> !Builtin(key) && (Steady(s, key.cluster) || key in s.exposed)
  }

  predicate RequestOk(r: Request) {
    !Builtin(r.key) && r.pool.registered
  }

  // Versions and copies are consistent, built-in pools are left alone, and a pool whose cluster is
  // gone or going counts as exposed.
  ghost predicate Sound(s: State) {
    && (forall name :: name in s.crs ==> s.crs[name].version <= s.clock)
    && (forall name :: name in s.places ==> PlaceOk(s, name))
    && (forall key :: key in s.pools ==> PoolOk(s, key))
    && (forall r :: r in s.inFlight ==> RequestOk(r))
  }

  ghost predicate Inv(s: State) {
    Sound(s) && forall key :: Owed(s, key) ==> Carried(s, key)
  }

  // What the soundness of one place depends on.
  lemma PlaceFrame(s: State, t: State, name: string)
    requires name in s.places && name in t.places && s.places[name] == t.places[name]
    requires name in s.crs <==> name in t.crs
    requires name in s.crs ==> s.crs[name] == t.crs[name]
    requires s.clock <= t.clock
    requires PlaceOk(s, name)
    ensures PlaceOk(t, name)
  {
  }

  // A write that keeps key and finalizer.
  lemma WriteSound(s: State, name: string, cr: Resource)
    requires Sound(s)
    requires name in s.crs ==> cr.key == s.crs[name].key && (s.crs[name].finalizer ==> cr.finalizer)
    ensures Sound(Write(s, name, cr))
  {
    var t := Write(s, name, cr);
    assert forall key | key in t.pools :: PoolOk(s, key);
    forall n | n in t.places
      ensures PlaceOk(t, n)
    {
      assert PlaceOk(s, n);
      if n != name {
        PlaceFrame(s, t, n);
      }
    }
  }

  lemma GoSound(s: State, name: string, p: Place)
    requires Sound(s) && PlaceOk(Go(s, name, p), name)
    ensures Sound(Go(s, name, p))
  {
    hide PlaceOk, PoolOk;
    var t := Go(s, name, p);
    forall n | n in t.places
      ensures PlaceOk(t, n)
    {
      if n != name {
        PlaceFrame(s, t, n);
      }
    }
    PoolsFrame(s, t);
  }

  lemma PoolsFrame(s: State, t: State)
    requires Sound(s) && s.pools == t.pools && s.clusters == t.clusters && s.exposed == t.exposed
    ensures forall key | key in t.pools :: PoolOk(t, key)
  {
    assert forall key | key in t.pools :: PoolOk(s, key);
  }

  lemma LeaveSound(s: State, name: string)
    requires Sound(s)
    ensures Sound(Leave(s, name))
  {
    hide PlaceOk, PoolOk;
    var t := Leave(s, name);
    forall n | n in t.places
      ensures PlaceOk(t, n)
    {
      PlaceFrame(s, t, n);
    }
    PoolsFrame(s, t);
  }

  lemma RemoveSound(s: State, name: string)
    requires Sound(s) && (name in s.places ==> s.places[name].Adding?)
    ensures Sound(s.(crs := s.crs - {name}))
  {
    var t := s.(crs := s.crs - {name});
    forall n | n in t.places
      ensures PlaceOk(t, n)
    {
      assert PlaceOk(s, n);
    }
    PoolsFrame(s, t);
  }

  // Changes that leave resources and passes alone.
  lemma PoolsSound(s: State, t: State)
    requires Sound(s) && t.crs == s.crs && t.places == s.places && t.clock == s.clock
    requires forall key | key in t.pools :: PoolOk(t, key)
    requires forall r | r in t.inFlight :: RequestOk(r)
    ensures Sound(t)
  {
    hide PlaceOk, PoolOk;
    forall n | n in t.places
      ensures PlaceOk(t, n)
    {
      PlaceFrame(s, t, n);
    }
  }

  lemma RegisterSound(s: State, key: Key, p: Pool)
    requires Sound(s) && !Builtin(key)
    ensures Sound(Register(s, key, p))
  {
    hide PlaceOk, Carried;
    var t := Register(s, key, p);
    forall k | k in t.pools
      ensures PoolOk(t, k)
    {
      if k != key {
        assert PoolOk(s, k);
      }
    }
    PoolsSound(s, t);
  }

  lemma AdoptSound(s: State, key: Key)
    requires Sound(s)
    ensures Sound(Adopt(s, key))
  {
    hide PlaceOk;
    var t := Adopt(s, key);
    assert forall k | k in t.pools :: PoolOk(s, k);
    PoolsSound(s, t);
  }

  lemma UserSound(s: State, a: Action)
    requires Sound(s)
    requires a.Create? || a.Edit? || a.Delete?
    ensures Sound(Step(s, a))
  {
    hide Sound, Write;
    match a
    case Create(name, key, body) =>
      if name !in s.crs {
        WriteSound(s, name, Resource(key, body, false, false, None, 0));
      }
    case Edit(name, body) =>
      if name in s.crs {
        WriteSound(s, name, s.crs[name].(body := body));
      }
    case Delete(name) =>
      if name in s.crs {
        if s.crs[name].finalizer {
          WriteSound(s, name, s.crs[name].(terminating := true));
        } else {
          NotHeld(s, name);
          RemoveSound(s, name);
        }
      }
  }

  lemma NotHeld(s: State, name: string)
    requires Sound(s) && (name in s.crs ==> !s.crs[name].finalizer)
    ensures name in s.places ==> s.places[name].Adding?
  {
    if name in s.places {
      assert PlaceOk(s, name);
    }
  }

  lemma ClusterSound(s: State, a: Action)
    requires Sound(s)
    requires a.ClusterCreated? || a.ClusterPhase? || a.ClusterDeleted? || a.ClusterGone?
    ensures Sound(Step(s, a))
  {
    hide PlaceOk, PoolOk, ClusterStep;
    var t := Step(s, a);
    ClusterKeepsPasses(s, a);
    forall key | key in t.pools
      ensures PoolOk(t, key)
    {
      ClusterPoolOk(s, a, key);
    }
    PoolsSound(s, t);
  }

  lemma ClusterKeepsPasses(s: State, a: Action)
    requires a.ClusterCreated? || a.ClusterPhase? || a.ClusterDeleted? || a.ClusterGone?
    ensures var t := ClusterStep(s, a);
            && t.crs == s.crs && t.places == s.places && t.clock == s.clock && t.inFlight == s.inFlight
            && t.pools.Keys <= s.pools.Keys
  {
  }

  lemma ClusterPoolOk(s: State, a: Action, key: Key)
    requires a.ClusterCreated? || a.ClusterPhase? || a.ClusterDeleted? || a.ClusterGone?
    requires PoolOk(s, key)
    ensures PoolOk(ClusterStep(s, a), key)
  {
    hide Builtin;
  }

  lemma ResolveSound(s: State, name: string, o: Outcome)
    requires Sound(s) && name in s.places && s.places[name].Resolving?
    ensures Sound(Resolve(s, name, s.places[name].cr, o))
  {
    var cr := s.places[name].cr;
    assert PlaceOk(s, name);
    LeaveSound(s, name);
    if cr.key.cluster in s.clusters {
      var uid, nomad := s.clusters[cr.key.cluster].uid, Nomad(s, cr.key.cluster);
      GoSound(s, name, if cr.owner == Some(uid) then Listing(cr, nomad) else Owning(cr, nomad, uid));
    }
  }

  lemma AddFinalizerSound(s: State, name: string, o: Outcome)
    requires Sound(s) && name in s.places && s.places[name].Adding?
    ensures Sound(AddFinalizer(s, name, s.places[name].cr, o))
  {
    hide Sound;
    var cr := s.places[name].cr;
    assert PlaceOk(s, name) by { PlaceSound(s, name); }
    LeaveSound(s, name);
    if Unchanged(s, name, cr) {
      var t := Adopt(Write(s, name, cr.(finalizer := true)), cr.key);
      WriteSound(s, name, cr.(finalizer := true));
      AdoptSound(Write(s, name, cr.(finalizer := true)), cr.key);
      LeaveSound(t, name);
      GoSound(t, name, Resolving(t.crs[name]));
    }
  }

  lemma SetOwnerSound(s: State, name: string, o: Outcome)
    requires Sound(s) && name in s.places && s.places[name].Owning?
    ensures Sound(Advance(s, name, o, true))
  {
    hide Sound;
    var cr, nomad, uid := s.places[name].cr, s.places[name].nomad, s.places[name].uid;
    assert PlaceOk(s, name) by { PlaceSound(s, name); }
    LeaveSound(s, name);
    if Unchanged(s, name, cr) {
      var t := Write(s, name, cr.(owner := Some(uid)));
      WriteSound(s, name, cr.(owner := Some(uid)));
      LeaveSound(t, name);
      GoSound(t, name, Listing(t.crs[name], nomad));
    }
  }

  lemma PlaceSound(s: State, name: string)
    requires Sound(s) && name in s.places
    ensures PlaceOk(s, name)
  {
  }

  lemma CheckAndReadSound(s: State, name: string, o: Outcome, hits: bool)
    requires Sound(s) && name in s.places && (s.places[name].Listing? || s.places[name].Reading?)
    ensures Sound(Advance(s, name, o, hits))
  {
    hide Sound, Conflict;
    var p := s.places[name];
    assert PlaceOk(s, name) by { PlaceSound(s, name); }
    LeaveSound(s, name);
    if p.Listing? {
      if !Builtin(p.cr.key) {
        GoSound(s, name, Reading(p.cr, p.nomad));
      }
    } else {
      GoSound(s, name, Upserting(p.cr, p.nomad, ""));
      if p.cr.key in s.pools {
        GoSound(s, name, Upserting(p.cr, p.nomad, s.pools[p.cr.key].unmanaged));
      }
    }
  }

  lemma UpsertSound(s: State, name: string, o: Outcome, hits: bool)
    requires Sound(s) && name in s.places && s.places[name].Upserting?
    ensures Sound(Advance(s, name, o, hits))
  {
    hide Sound, Register, Hits;
    var p := s.places[name];
    assert PlaceOk(s, name) by { PlaceSound(s, name); }
    var pool := Pool(p.cr.body, p.unmanaged, true);
    RegisterSound(s, p.cr.key, pool);
    LeaveSound(Register(s, p.cr.key, pool), name);
    LeaveSound(s, name);
  }

  lemma FinalResolveSound(s: State, name: string, o: Outcome)
    requires Sound(s) && name in s.places && s.places[name].FinalResolving?
    ensures Sound(FinalResolve(s, name, s.places[name].cr, o))
  {
    var cr := s.places[name].cr;
    assert PlaceOk(s, name);
    LeaveSound(s, name);
    GoSound(s, name, Dropping(cr, true));
    GoSound(s, name, Deleting(cr, Nomad(s, cr.key.cluster)));
  }

  lemma DeletePoolSound(s: State, name: string, o: Outcome, hits: bool)
    requires Sound(s) && name in s.places && s.places[name].Deleting?
    ensures Sound(Advance(s, name, o, hits))
  {
    hide PlaceOk, Hits;
    var p := s.places[name];
    var t := s.(
      deletes := s.deletes + [p.cr.key],
      pools := if o.Applied() && Hits(s, p.cr.key, p.nomad, hits) then s.pools - {p.cr.key} else s.pools);
    assert forall k | k in t.pools :: PoolOk(s, k);
    PoolsSound(s, t);
    LeaveSound(t, name);
    DroppingOk(s, t, name);
    GoSound(t, name, Dropping(p.cr, false));
  }

  lemma DroppingOk(s: State, t: State, name: string)
    requires Sound(s) && name in s.places && s.places[name].Deleting? && t.crs == s.crs
    ensures PlaceOk(Go(t, name, Dropping(s.places[name].cr, false)), name)
  {
    assert PlaceOk(s, name);
  }

  lemma DropFinalizerSound(s: State, name: string, o: Outcome)
    requires Sound(s) && name in s.places
    ensures Sound(DropFinalizer(s, name, s.places[name].cr, o))
  {
    LeaveSound(s, name);
    RemoveSound(Leave(s, name), name);
    assert Leave(s.(crs := s.crs - {name}), name) == Leave(s, name).(crs := s.crs - {name});
  }

  lemma AdvanceSound(s: State, name: string, o: Outcome, hits: bool)
    requires Sound(s) && name in s.places
    ensures Sound(Advance(s, name, o, hits))
  {
    hide Sound, AddFinalizer, Resolve, SetOwner, FinalResolve, DropFinalizer, Upsert, DeletePool, ReadPool, CheckConflict;
    match s.places[name]
    case Adding(_) => AddFinalizerSound(s, name, o);
    case Resolving(_) => ResolveSound(s, name, o);
    case Owning(_, _, _) => SetOwnerSound(s, name, o);
    case Listing(_, _) => CheckAndReadSound(s, name, o, hits);
    case Reading(_, _) => CheckAndReadSound(s, name, o, hits);
    case Upserting(_, _, _) => UpsertSound(s, name, o, hits);
    case FinalResolving(_) => FinalResolveSound(s, name, o);
    case Deleting(_, _) => DeletePoolSound(s, name, o, hits);
    case Dropping(_, _) => DropFinalizerSound(s, name, o);
  }

  lemma BeginSound(s: State, name: string)
    requires Sound(s)
    ensures Sound(Begin(s, name))
  {
    if name in s.crs {
      var cr := s.crs[name];
      if cr.finalizer {
        GoSound(s, name, if cr.terminating then FinalResolving(cr) else Resolving(cr));
      } else if !cr.terminating {
        GoSound(s, name, Adding(cr));
      }
    }
  }

  lemma GiveUpSound(s: State, name: string)
    requires Sound(s) && name in s.places && s.places[name].Upserting?
    ensures Sound(Step(s, GiveUp(name)))
  {
    assert PlaceOk(s, name);
    hide PlaceOk;
    var t := s.(inFlight := s.inFlight + {Pending(s.places[name])});
    PoolsFrame(s, t);
    PoolsSound(s, t);
    LeaveSound(t, name);
  }

  lemma LandSound(s: State, r: Request)
    requires Sound(s)
    ensures Sound(Step(s, Land(r)))
  {
    hide PlaceOk, Register;
    var t := s.(inFlight := s.inFlight - {r});
    PoolsFrame(s, t);
    PoolsSound(s, t);
    if r in s.inFlight {
      assert RequestOk(r);
      RegisterSound(t, r.key, r.pool);
    }
  }

  lemma NomadSound(s: State, a: Action)
    requires Sound(s)
    requires a.PoolChanged? || a.PoolRemoved? || a.GiveUp? || a.Land? || a.Crash?
    ensures Sound(Step(s, a))
  {
    hide PlaceOk, Register, Leave;
    match a
    case PoolChanged(_, _, _) =>
      assert forall k | k in s.pools :: PoolOk(s, k);
      PoolsSound(s, Step(s, a));
    case PoolRemoved(_) =>
      assert forall k | k in s.pools :: PoolOk(s, k);
      PoolsSound(s, Step(s, a));
    case GiveUp(name) =>
      if name in s.places && s.places[name].Upserting? {
        GiveUpSound(s, name);
      }
    case Land(r) => LandSound(s, r);
    case Crash =>
      PoolsFrame(s, s.(places := map[]));
  }

  lemma StepSound(s: State, a: Action)
    requires Sound(s)
    ensures Sound(Step(s, a))
  {
    hide Sound, UserStep, ClusterStep, Register, Advance, Begin;
    match a
    case Create(_, _, _) => UserSound(s, a);
    case Edit(_, _) => UserSound(s, a);
    case Delete(_) => UserSound(s, a);
    case ClusterCreated(_, _) => ClusterSound(s, a);
    case ClusterPhase(_, _) => ClusterSound(s, a);
    case ClusterDeleted(_) => ClusterSound(s, a);
    case ClusterGone(_) => ClusterSound(s, a);
    case Start(name) => BeginSound(s, name);
    case Proceed(name, o, hits) =>
      if name in s.places {
        AdvanceSound(s, name, o, hits);
      }
    case _ => NomadSound(s, a);
  }

  // What advancing one resource leaves alone: the clusters and all other resources. It logs at most
  // its own delete.
  predicate Apart(s: State, t: State, n: string, name: string) {
    && t.clusters == s.clusters && t.nomads == s.nomads
    && t.deletes == s.deletes
         + (if n in s.places && s.places[n].Deleting? then [s.places[n].cr.key] else [])
    && (n != name ==>
          && (name in s.crs <==> name in t.crs) && (name in s.crs ==> t.crs[name] == s.crs[name])
          && (name in s.places <==> name in t.places) && (name in s.places ==> t.places[name] == s.places[name]))
  }

  lemma WriteGoApart(s: State, n: string, cr: Resource, p: Place, name: string)
    requires n in s.places && !s.places[n].Deleting?
    ensures Apart(s, Go(s, n, p), n, name) && Apart(s, Leave(s, n), n, name)
    ensures Apart(s, Leave(s.(crs := s.crs - {n}), n), n, name)
    ensures var t := Write(s, n, cr);
            && n in t.crs && Adopt(t, cr.key).crs == t.crs && Apart(s, Go(t, n, p), n, name) && Apart(s, Leave(t, n), n, name)
            && Apart(s, Go(Adopt(t, cr.key), n, p), n, name) && Apart(s, Leave(Adopt(t, cr.key), n), n, name)
  {
  }

  lemma WritesApart(s: State, n: string, o: Outcome, hits: bool, name: string)
    requires n in s.places && (s.places[n].Adding? || s.places[n].Owning? || s.places[n].Dropping?)
    ensures Apart(s, Advance(s, n, o, hits), n, name)
  {
    hide Apart, Write, Go, Leave, Unchanged, Adopt;
    var p := s.places[n];
    WriteGoApart(s, n, p.cr, p, name);
    if p.Adding? {
      var cr := p.cr.(finalizer := true);
      WriteGoApart(s, n, cr, p, name);
      WriteGoApart(s, n, cr, Resolving(Adopt(Write(s, n, cr), cr.key).crs[n]), name);
    } else if p.Owning? {
      var cr := p.cr.(owner := Some(p.uid));
      WriteGoApart(s, n, cr, p, name);
      WriteGoApart(s, n, cr, Listing(Write(s, n, cr).crs[n], p.nomad), name);
    }
  }

  lemma ReadsApart(s: State, n: string, o: Outcome, hits: bool, name: string)
    requires n in s.places
    requires s.places[n].Resolving? || s.places[n].Listing? || s.places[n].Reading? || s.places[n].FinalResolving?
    ensures Apart(s, Advance(s, n, o, hits), n, name)
  {
    var p := s.places[n];
    GoApart(s, n, p, name);
    if p.Resolving? && p.cr.key.cluster in s.clusters {
      var uid, nomad := s.clusters[p.cr.key.cluster].uid, Nomad(s, p.cr.key.cluster);
      GoApart(s, n, if p.cr.owner == Some(uid) then Listing(p.cr, nomad) else Owning(p.cr, nomad, uid), name);
    } else if p.Listing? {
      GoApart(s, n, Reading(p.cr, p.nomad), name);
    } else if p.Reading? {
      GoApart(s, n, Upserting(p.cr, p.nomad, if p.cr.key in s.pools then s.pools[p.cr.key].unmanaged else ""), name);
      GoApart(s, n, Upserting(p.cr, p.nomad, ""), name);
    } else if p.FinalResolving? {
      GoApart(s, n, Dropping(p.cr, true), name);
      GoApart(s, n, Deleting(p.cr, Nomad(s, p.cr.key.cluster)), name);
    }
    hide Conflict, Builtin, Hits, Apart, Go, Leave;
  }

  lemma GoApart(s: State, n: string, p: Place, name: string)
    requires n in s.places && !s.places[n].Deleting?
    ensures Apart(s, Go(s, n, p), n, name) && Apart(s, Leave(s, n), n, name)
  {
  }

  lemma NomadCallsApart(s: State, n: string, o: Outcome, hits: bool, name: string)
    requires n in s.places && (s.places[n].Upserting? || s.places[n].Deleting?)
    ensures Apart(s, Advance(s, n, o, hits), n, name)
  {
    hide Hits, Carried;
  }

  lemma AdvanceApart(s: State, n: string, o: Outcome, hits: bool, name: string)
    requires n in s.places
    ensures Apart(s, Advance(s, n, o, hits), n, name)
  {
    hide Apart, Advance;
    if s.places[n].Adding? || s.places[n].Owning? || s.places[n].Dropping? {
      WritesApart(s, n, o, hits, name);
    } else if s.places[n].Upserting? || s.places[n].Deleting? {
      NomadCallsApart(s, n, o, hits, name);
    } else {
      ReadsApart(s, n, o, hits, name);
    }
  }
  /* --------------------------------- Carriers stay --------------------------------- */

  // The pass over the carrier itself: it only gets past deleting the pool when the pool is gone
  // from the current Nomad, or the cluster is on its way out.
  lemma OwnKeepsCarrier(s: State, name: string, o: Outcome, hits: bool, key: Key)
    requires Sound(s) && name in s.places && Carrier(s, name, key) && Owed(Advance(s, name, o, hits), key)
    ensures Carrier(Advance(s, name, o, hits), name, key)
  {
    hide Sound, Conflict, Carried, Builtin;
    PlaceSound(s, name);
    if s.places[name].Adding? || s.places[name].Owning? {
      OwnWritesKeepCarrier(s, name, o, hits, key);
    } else if s.places[name].FinalResolving? {
      OwnFinalResolveKeepsCarrier(s, name, o, key);
    } else {
      hide AddFinalizer, SetOwner, FinalResolve;
    }
  }

  lemma OwnFinalResolveKeepsCarrier(s: State, name: string, o: Outcome, key: Key)
    requires Sound(s) && name in s.places && s.places[name].FinalResolving? && Carrier(s, name, key)
    requires Owed(FinalResolve(s, name, s.places[name].cr, o), key)
    ensures Carrier(FinalResolve(s, name, s.places[name].cr, o), name, key)
  {
    assert PlaceOk(s, name) && PoolOk(s, key);
  }

  lemma OwnWritesKeepCarrier(s: State, name: string, o: Outcome, hits: bool, key: Key)
    requires name in s.places && (s.places[name].Adding? || s.places[name].Owning?) && PlaceOk(s, name)
    requires Keeper(s, name, key)
    ensures Carrier(Advance(s, name, o, hits), name, key)
  {
  }

  lemma AdvanceKeepsCarrier(s: State, n: string, o: Outcome, hits: bool, name: string, key: Key)
    requires Sound(s) && n in s.places && Carrier(s, name, key) && Owed(Advance(s, n, o, hits), key)
    ensures Carrier(Advance(s, n, o, hits), name, key)
  {
    hide Sound, Conflict, Advance, Owed;
    AdvanceApart(s, n, o, hits, name);
    if n == name {
      OwnKeepsCarrier(s, name, o, hits, key);
    }
  }

  lemma UserKeepsCarrier(s: State, a: Action, name: string, key: Key)
    requires a.Create? || a.Edit? || a.Delete?
    requires Keeper(s, name, key)
    ensures Keeper(Step(s, a), name, key) && (Carrier(s, name, key) ==> Carrier(Step(s, a), name, key))
  {
  }

  lemma ClusterKeepsCarrier(s: State, a: Action, name: string, key: Key)
    requires a.ClusterCreated? || a.ClusterPhase? || a.ClusterDeleted? || a.ClusterGone?
    requires Keeper(s, name, key) && IsRegistered(Step(s, a), key)
    ensures Keeper(Step(s, a), name, key) && (Carrier(s, name, key) ==> Carrier(Step(s, a), name, key))
  {
  }

  lemma NomadKeepsCarrier(s: State, a: Action, name: string, key: Key)
    requires a.PoolChanged? || a.PoolRemoved? || a.GiveUp? || a.Land? || a.Crash?
    requires Keeper(s, name, key)
    ensures Keeper(Step(s, a), name, key) && (Carrier(s, name, key) ==> Carrier(Step(s, a), name, key))
  {
    hide Carried, Builtin, Steady;
  }

  /** Nothing that happens takes the carrier away while the pool is owed one. */
  lemma {:induction false} CarrierStays(s: State, a: Action, name: string, key: Key)
    requires Sound(s) && Carrier(s, name, key) && Owed(Step(s, a), key)
    ensures Carrier(Step(s, a), name, key)
  {
    hide Sound, UserStep, ClusterStep, Register, Advance;
    match a
    case Create(_, _, _) => UserKeepsCarrier(s, a, name, key);
    case Edit(_, _) => UserKeepsCarrier(s, a, name, key);
    case Delete(_) => UserKeepsCarrier(s, a, name, key);
    case ClusterCreated(_, _) => ClusterKeepsCarrier(s, a, name, key);
    case ClusterPhase(_, _) => ClusterKeepsCarrier(s, a, name, key);
    case ClusterDeleted(_) => ClusterKeepsCarrier(s, a, name, key);
    case ClusterGone(_) => ClusterKeepsCarrier(s, a, name, key);
    case Start(n) =>
    case Proceed(n, o, hits) =>
      if n in s.places {
        AdvanceKeepsCarrier(s, n, o, hits, name, key);
      }
    case _ => NomadKeepsCarrier(s, a, name, key);
  }

  /* --------------------------------- What makes a pool owed --------------------------------- */

  // Steps that leave the pools and their records alone.
  predicate SamePools(s: State, t: State) {
    t.pools == s.pools && t.late == s.late && t.exposed == s.exposed
  }

  lemma AddFinalizerOwed(s: State, n: string, o: Outcome, key: Key)
    requires n in s.places && s.places[n].Adding? && PlaceOk(s, n)
    requires Owed(AddFinalizer(s, n, s.places[n].cr, o), key) && !Owed(s, key)
    ensures Carrier(AddFinalizer(s, n, s.places[n].cr, o), n, key)
  {
  }

  lemma UpsertOwed(s: State, n: string, o: Outcome, hits: bool, key: Key)
    requires n in s.places && s.places[n].Upserting? && PlaceOk(s, n)
    requires Owed(Advance(s, n, o, hits), key) && !Owed(s, key)
    ensures Carrier(Advance(s, n, o, hits), n, key)
  {
    hide Carried, Hits, Steady;
  }

  lemma OthersSamePools(s: State, n: string, o: Outcome, hits: bool)
    requires n in s.places && !s.places[n].Adding? && !s.places[n].Upserting? && !s.places[n].Deleting?
    ensures SamePools(s, Advance(s, n, o, hits))
  {
    hide SamePools, SetOwner, DropFinalizer, Resolve, CheckConflict, ReadPool, FinalResolve;
    var p := s.places[n];
    match p
    case Resolving(cr) => ResolveSamePools(s, n, cr, o);
    case Owning(cr, nomad, uid) => SetOwnerSamePools(s, n, cr, nomad, uid, o);
    case Listing(cr, nomad) => CheckSamePools(s, n, cr, nomad, o);
    case Reading(cr, nomad) => ReadSamePools(s, n, cr, nomad, o, hits);
    case FinalResolving(cr) => FinalResolveSamePools(s, n, cr, o);
    case Dropping(cr, _) => DropSamePools(s, n, cr, o);
  }

  lemma ResolveSamePools(s: State, n: string, cr: Resource, o: Outcome)
    ensures SamePools(s, Resolve(s, n, cr, o))
  {
  }

  lemma SetOwnerSamePools(s: State, n: string, cr: Resource, nomad: nat, uid: nat, o: Outcome)
    ensures SamePools(s, SetOwner(s, n, cr, nomad, uid, o))
  {
  }

  lemma CheckSamePools(s: State, n: string, cr: Resource, nomad: nat, o: Outcome)
    ensures SamePools(s, CheckConflict(s, n, cr, nomad, o))
  {
    hide Conflict, Builtin;
  }

  lemma ReadSamePools(s: State, n: string, cr: Resource, nomad: nat, o: Outcome, hits: bool)
    ensures SamePools(s, ReadPool(s, n, cr, nomad, o, hits))
  {
    hide Hits;
  }

  lemma FinalResolveSamePools(s: State, n: string, cr: Resource, o: Outcome)
    ensures SamePools(s, FinalResolve(s, n, cr, o))
  {
  }

  lemma DropSamePools(s: State, n: string, cr: Resource, o: Outcome)
    ensures SamePools(s, DropFinalizer(s, n, cr, o))
  {
  }

  // Only a registration or a new finalizer makes a pool owed, and the resource it is for carries it.
  lemma AdvanceOwedBefore(s: State, n: string, o: Outcome, hits: bool, key: Key)
    requires Sound(s) && n in s.places && Owed(Advance(s, n, o, hits), key)
    ensures Owed(s, key) || Carrier(Advance(s, n, o, hits), n, key)
  {
    hide Sound, AddFinalizer, Hits, Upsert;
    PlaceSound(s, n);
    if s.places[n].Adding? {
      if !Owed(s, key) { AddFinalizerOwed(s, n, o, key); }
    } else if s.places[n].Upserting? {
      if !Owed(s, key) { UpsertOwed(s, n, o, hits, key); }
    } else if !s.places[n].Deleting? {
      hide Advance;
      OthersSamePools(s, n, o, hits);
    }
  }

  lemma LandOwedBefore(s: State, r: Request, key: Key)
    requires Owed(Step(s, Land(r)), key)
    ensures Owed(s, key) || Carried(Step(s, Land(r)), key)
  {
    hide Steady;
    if r in s.inFlight && key == r.key {
      var t := s.(inFlight := s.inFlight - {r});
      var name :| name in t.crs && Carrier(t, name, key);
      assert Carrier(Step(s, Land(r)), name, key);
    }
  }

  lemma ClusterOwedBefore(s: State, a: Action, key: Key)
    requires a.ClusterCreated? || a.ClusterPhase? || a.ClusterDeleted? || a.ClusterGone?
    requires Owed(ClusterStep(s, a), key)
    ensures Owed(s, key)
  {
  }

  lemma OwedBefore(s: State, a: Action, key: Key)
    requires Sound(s) && Owed(Step(s, a), key)
    ensures Owed(s, key) || Carried(Step(s, a), key)
  {
    hide Sound, UserStep, Advance, ClusterStep, Register, Carried, Carrier;
    match a
    case Proceed(n, o, hits) =>
      if n in s.places {
        AdvanceOwedBefore(s, n, o, hits, key);
        CarrierCarries(Step(s, a), n, key);
      }
    case ClusterCreated(_, _) => ClusterOwedBefore(s, a, key);
    case ClusterPhase(_, _) => ClusterOwedBefore(s, a, key);
    case ClusterDeleted(_) => ClusterOwedBefore(s, a, key);
    case ClusterGone(_) => ClusterOwedBefore(s, a, key);
    case Create(_, _, _) => UserKeepsNomad(s, a);
    case Edit(_, _) => UserKeepsNomad(s, a);
    case Delete(_) => UserKeepsNomad(s, a);
    case Land(r) => LandOwedBefore(s, r, key);
    case _ =>
  }

  lemma CarrierCarries(s: State, name: string, key: Key)
    ensures Carrier(s, name, key) ==> Carried(s, key)
  {
  }

  lemma UserKeepsNomad(s: State, a: Action)
    requires a.Create? || a.Edit? || a.Delete?
    ensures var t := UserStep(s, a);
            && SamePools(s, t) && t.clusters == s.clusters && t.nomads == s.nomads
            && t.places == s.places && t.deletes == s.deletes
  {
  }

  lemma StepKeepsInv(s: State, a: Action)
    requires Inv(s)
    ensures Inv(Step(s, a))
  {
    hide Step, Sound, Owed, Carried, Carrier;
    var t := Step(s, a);
    StepSound(s, a);
    forall key | Owed(t, key)
      ensures Carried(t, key)
    {
      OwedBefore(s, a, key);
      if Owed(s, key) {
        var name := CarrierOf(s, key);
        CarrierStays(s, a, name, key);
        CarrierCarries(t, name, key);
      }
    }
  }

  lemma CarrierOf(s: State, key: Key) returns (name: string)
    requires Carried(s, key)
    ensures Carrier(s, name, key)
  {
    name :| name in s.crs && Carrier(s, name, key);
  }

  lemma {:induction false} RunKeepsInv(s: State, actions: seq<Action>)
    requires Inv(s)
    ensures Inv(Run(s, actions))
    decreases actions
  {
    if actions != [] {
      StepKeepsInv(s, actions[0]);
      RunKeepsInv(Step(s, actions[0]), actions[1..]);
    }
  }

  /** No orphan, in any interleaving: a pool the operator registered has a resource of the same
      cluster and pool name that carries the finalizer, and is not built in, unless its cluster has
      been gone or going since, or a registration took effect after its sender had given up and no
      resource was there to carry the pool. PoolOrphans says exactly what happens in those cases. */
  lemma NoOrphan(actions: seq<Action>, key: Key)
    requires var s := Run(INITIAL, actions);
             IsRegistered(s, key) && key !in s.exposed && key !in s.late
    ensures var s := Run(INITIAL, actions);
            && !Builtin(key) && Steady(s, key.cluster)
            && exists name :: name in s.crs && s.crs[name].key == key && s.crs[name].finalizer
  {
    RunKeepsInv(INITIAL, actions);
    var s := Run(INITIAL, actions);
    assert PoolOk(s, key) && Owed(s, key);
    var name := CarrierOf(s, key);
  }

  lemma {:induction false} RunConcat(s: State, a: seq<Action>, b: seq<Action>)
    ensures Run(s, a + b) == Run(Run(s, a), b)
    decreases a
  {
    if a == [] {
      assert a + b == b;
    } else {
      RunConcat(Step(s, a[0]), a[1..], b);
      assert (a + b)[1..] == a[1..] + b;
    }
  }
}
