/** Runs of the pool protocol that show its limits: an abandoned registration, retained data, and
    built-in pools. */
module PoolInstances {
  import opened Api
  import opened PoolProtocol
  import opened PoolSafety
  import opened PoolOrphans

  ghost predicate Reachable(s: State) {
    exists actions :: Run(INITIAL, actions) == s
  }

  lemma StepReachable(s: State, a: Action)
    requires Reachable(s)
    ensures Reachable(Step(s, a))
  {
    var actions :| Run(INITIAL, actions) == s;
    RunConcat(INITIAL, actions, [a]);
    assert [a][1..] == [];
    assert Run(INITIAL, actions + [a]) == Step(s, a);
  }

  const STEADY := map["c" := Cluster(0, true, false)]
  const NOMADS := map["c" := 0]

  // A resource "p" for a key on a Ready cluster.
  function Created(key: Key): State {
    State(map["p" := Resource(key, "", false, false, None, 1)], map[], STEADY, NOMADS, map[], {}, {}, {}, 1, 1, [])
  }

  function Owned(key: Key): Resource { Resource(key, "", false, true, Some(0), 3) }

  lemma CreatedReachable(key: Key)
    ensures Reachable(Created(key))
  {
    assert Run(INITIAL, []) == INITIAL;
    hide Reachable;
    var s := INITIAL;
    StepReachable(s, ClusterCreated("c", false));
    var t := Step(s, ClusterCreated("c", false));
    assert t.clusters == map["c" := Cluster(0, false, false)] && t.nomads == NOMADS && t.pools == map[];
    StepReachable(t, ClusterPhase("c", true));
    var u := Step(t, ClusterPhase("c", true));
    assert u.clusters == STEADY;
    StepReachable(u, Create("p", key, ""));
    assert Step(u, Create("p", key, "")) == Created(key);
  }

  // Its pass, once the finalizer and the owner are set.
  function Listed(key: Key): State {
    State(map["p" := Owned(key)], map["p" := Listing(Owned(key), 0)], STEADY, NOMADS, map[], {}, {}, {}, 3, 1, [])
  }

  lemma ListedReachable(key: Key)
    requires key.cluster == "c"
    ensures Reachable(Listed(key))
  {
    hide Reachable;
    CreatedReachable(key);
    var p := Proceed("p", Ok, true);
    StepReachable(Created(key), Start("p"));
    var started := Step(Created(key), Start("p"));
    StepReachable(started, p);
    var added := Step(started, p);
    assert added.late == {} && added.exposed == {};
    StepReachable(added, p);
    var resolved := Step(added, p);
    StepReachable(resolved, p);
    var owned := Step(resolved, p);
    assert owned.crs == map["p" := Owned(key)] && owned.places == map["p" := Listing(Owned(key), 0)];
  }

  const ORPHAN := Key("c", "pool")
  const REQUEST := Request(ORPHAN, Pool("", "", true))

  function Upserted(): State {
    Listed(ORPHAN).(places := map["p" := Upserting(Owned(ORPHAN), 0, "")])
  }

  lemma UpsertingReachable()
    ensures Reachable(Upserted())
  {
    hide Reachable;
    ListedReachable(ORPHAN);
    var p := Proceed("p", Ok, true);
    StepReachable(Listed(ORPHAN), p);
    var read := Step(Listed(ORPHAN), p);
    StepReachable(read, p);
    assert Step(read, p) == Upserted();
  }

  // The registration is given up on, or it takes effect.
  function Abandoned(): State { Upserted().(places := map[], inFlight := {REQUEST}) }

  function Registered(): State { Upserted().(places := map[], pools := map[ORPHAN := Pool("", "", true)]) }

  lemma AbandonedReachable()
    ensures Reachable(Abandoned()) && Reachable(Registered())
  {
    hide Reachable;
    UpsertingReachable();
    StepReachable(Upserted(), GiveUp("p"));
    var t := Step(Upserted(), GiveUp("p"));
    assert t.places == map[] && t.inFlight == {REQUEST};
    StepReachable(Upserted(), Proceed("p", Ok, true));
    var u := Step(Upserted(), Proceed("p", Ok, true));
    assert Carrier(Upserted(), "p", ORPHAN);
    assert u.places == map[] && u.late == {} && u.exposed == {} && u.pools == map[ORPHAN := Pool("", "", true)];
  }

  /** A registration that takes effect after its resource is gone leaves an orphan behind, on a Ready
      cluster that never went away. */
  lemma LateRegistrationOrphans()
    ensures exists s :: Reachable(s) && Orphaned(s, ORPHAN) && Steady(s, "c") && ORPHAN in s.late
  {
    hide Reachable;
    AbandonedReachable();
    var p := Proceed("p", Ok, true);
    var s := Abandoned();
    StepReachable(s, Delete("p"));
    var deleted := Step(s, Delete("p"));
    StepReachable(deleted, Start("p"));
    var started := Step(deleted, Start("p"));
    StepReachable(started, p);
    var resolved := Step(started, p);
    assert Nomad(started, "c") == 0;
    StepReachable(resolved, p);
    var gone := Step(resolved, p);
    assert REQUEST in gone.inFlight && gone.places["p"].Dropping?;
    StepReachable(gone, p);
    var dropped := Step(gone, p);
    assert dropped.crs == map[];
    StepReachable(dropped, Land(REQUEST));
    assert Orphaned(Step(dropped, Land(REQUEST)), ORPHAN);
  }

  // The cluster is gone and the resource is being deleted; then it is gone, too.
  function Going(): State {
    Registered().(crs := map["p" := Owned(ORPHAN).(terminating := true, version := 4)], clusters := map[],
                  exposed := {ORPHAN}, clock := 4)
  }

  function Cascaded(): State { Going().(crs := map[]) }

  lemma GoingReachable()
    ensures Reachable(Going())
  {
    hide Reachable;
    AbandonedReachable();
    var s := Registered();
    StepReachable(s, ClusterGone("c"));
    var gone := Step(s, ClusterGone("c"));
    assert PoolsOf(s, "c") == {ORPHAN} && gone.clusters == map[] && gone.exposed == {ORPHAN};
    StepReachable(gone, Delete("p"));
    assert Step(gone, Delete("p")).crs == Going().crs;
  }

  lemma CascadedReachable()
    ensures Reachable(Cascaded())
  {
    hide Reachable;
    GoingReachable();
    var p := Proceed("p", Ok, true);
    StepReachable(Going(), Start("p"));
    var started := Step(Going(), Start("p"));
    StepReachable(started, p);
    var resolved := Step(started, p);
    assert resolved.places == map["p" := Dropping(resolved.crs["p"], true)];
    StepReachable(resolved, p);
    var dropped := Step(resolved, p);
    assert dropped.crs == map[] && dropped.places == map[];
  }

  /** Removing a cluster and creating it again on its retained data leaves an orphan behind. */
  lemma RetainedDataOrphans()
    ensures exists s :: Reachable(s) && Orphaned(s, ORPHAN) && Steady(s, "c") && s.late == {}
  {
    hide Reachable;
    CascadedReachable();
    StepReachable(Cascaded(), ClusterCreated("c", true));
    assert Orphaned(Step(Cascaded(), ClusterCreated("c", true)), ORPHAN);
  }

  /* --------------------------------- Built-in pools --------------------------------- */

  predicate KeyOk(s: State, name: string)
    requires name in s.crs
  {
    !Builtin(s.crs[name].key)
  }

  // Nothing asks for a built-in pool and no delete of one was issued.
  ghost predicate BuiltinsAlone(s: State) {
    && (forall name :: name in s.crs ==> KeyOk(s, name))
    && forall i :: 0 <= i < |s.deletes| ==> !Builtin(s.deletes[i])
  }

  predicate CreatesBuiltin(a: Action) { a.Create? && Builtin(a.key) }

  lemma OwnKeyWritten(s: State, n: string, o: Outcome, hits: bool)
    requires n in s.places && PlaceOk(s, n)
    requires s.places[n].Adding? || s.places[n].Owning? || s.places[n].Dropping?
    ensures var t := Advance(s, n, o, hits);
            n in t.crs ==> n in s.crs && t.crs[n].key == s.crs[n].key
  {
    hide Steady;
  }

  lemma NotWritten(s: State, n: string, o: Outcome, hits: bool)
    requires n in s.places && !s.places[n].Adding? && !s.places[n].Owning? && !s.places[n].Dropping?
    ensures Advance(s, n, o, hits).crs == s.crs
  {
    hide Conflict, Carried, Builtin, Steady, Hits, AddFinalizer, SetOwner, DropFinalizer;
    if s.places[n].Upserting? || s.places[n].Deleting? {
      hide Resolve, CheckConflict, ReadPool, FinalResolve;
    } else {
      hide Upsert, DeletePool;
    }
  }

  lemma AdvanceBuiltins(s: State, n: string, o: Outcome, hits: bool)
    requires Sound(s) && BuiltinsAlone(s) && n in s.places
    ensures BuiltinsAlone(Advance(s, n, o, hits))
  {
    hide Builtin, Advance, Sound;
    var t := Advance(s, n, o, hits);
    PlaceSound(s, n);
    AdvanceApart(s, n, o, hits, n);
    assert s.places[n].Deleting? ==> KeyOk(s, n);
    forall name | name in t.crs
      ensures KeyOk(t, name)
    {
      if s.places[n].Adding? || s.places[n].Owning? || s.places[n].Dropping? {
        OwnKeyWritten(s, n, o, hits);
      } else {
        NotWritten(s, n, o, hits);
      }
      AdvanceApart(s, n, o, hits, name);
      assert KeyOk(s, name);
    }
  }

  lemma UserBuiltins(s: State, a: Action)
    requires BuiltinsAlone(s) && !CreatesBuiltin(a) && (a.Create? || a.Edit? || a.Delete?)
    ensures BuiltinsAlone(Step(s, a))
  {
    hide Builtin;
    forall name | name in Step(s, a).crs
      ensures KeyOk(Step(s, a), name)
    {
      assert name in s.crs ==> KeyOk(s, name);
    }
  }

  lemma StepBuiltins(s: State, a: Action)
    requires Sound(s) && BuiltinsAlone(s) && !CreatesBuiltin(a)
    ensures BuiltinsAlone(Step(s, a))
  {
    hide Builtin, Advance, Sound, UserStep, Carried, Steady;
    match a
    case Create(_, _, _) => UserBuiltins(s, a);
    case Edit(_, _) => UserBuiltins(s, a);
    case Delete(_) => UserBuiltins(s, a);
    case Proceed(n, o, hits) =>
      if n in s.places {
        AdvanceBuiltins(s, n, o, hits);
      }
    case _ => assert forall name | name in s.crs :: KeyOk(s, name);
  }

  /** As long as no resource for a built-in pool is created, none is ever deleted, although finalizing
      has no guard for them. */
  lemma {:induction false} NoBuiltinDeleted(s: State, actions: seq<Action>)
    requires Sound(s) && BuiltinsAlone(s)
    requires forall i :: 0 <= i < |actions| ==> !CreatesBuiltin(actions[i])
    ensures BuiltinsAlone(Run(s, actions))
    decreases actions
  {
    hide Step, Sound, BuiltinsAlone;
    if actions != [] {
      StepSound(s, actions[0]);
      StepBuiltins(s, actions[0]);
      NoBuiltinDeleted(Step(s, actions[0]), actions[1..]);
    }
  }

  const DEFAULT := Key("c", "default")

  // A resource for a built-in pool, refused registration and deleted.
  function Refusing(): State {
    Listed(DEFAULT).(crs := map["p" := Owned(DEFAULT).(terminating := true, version := 4)], places := map[], clock := 4)
  }

  lemma RefusingReachable()
    ensures Reachable(Refusing())
  {
    hide Reachable;
    ListedReachable(DEFAULT);
    var p := Proceed("p", Ok, true);
    StepReachable(Listed(DEFAULT), p);
    var left := Step(Listed(DEFAULT), p);
    assert left.places == map[];
    StepReachable(left, Delete("p"));
    assert Step(left, Delete("p")).crs == Refusing().crs;
  }

  /** With such a resource one is: this is what admission has to prevent. */
  lemma BuiltinCanBeDeleted()
    ensures exists s :: Reachable(s) && s.deletes == [DEFAULT]
  {
    hide Reachable;
    RefusingReachable();
    var p := Proceed("p", Ok, true);
    var deleted := Refusing();
    StepReachable(deleted, Start("p"));
    var started := Step(deleted, Start("p"));
    StepReachable(started, p);
    var resolved := Step(started, p);
    assert resolved.places["p"].Deleting?;
    StepReachable(resolved, p);
    assert Step(resolved, p).deletes == [DEFAULT];
  }
}
