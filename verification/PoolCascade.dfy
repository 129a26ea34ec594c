/** Deleting a cluster never blocks the deletion of the resources that belong to it. */
module PoolCascade {
  import opened Api
  import opened PoolProtocol
  import opened PoolSafety

  /* --------------------------------- Error-free turns --------------------------------- */

  // The next step of the pass over a resource, or the start of one; nothing fails.
  function TurnAction(s: State, name: string): Action {
    if name in s.places then Proceed(name, Ok, true) else Start(name)
  }

  function Turn(s: State, name: string): State { Step(s, TurnAction(s, name)) }

  function Turns(s: State, schedule: seq<string>): State
    decreases schedule
  {
    if schedule == [] then s else Turns(Turn(s, schedule[0]), schedule[1..])
  }

  function Occurs(schedule: seq<string>, name: string): nat
    decreases schedule
  {
    if schedule == [] then 0
    else (if schedule[0] == name then 1 else 0) + Occurs(schedule[1..], name)
  }

  // The machine's actions that a schedule of turns makes.
  function TurnActions(s: State, schedule: seq<string>): seq<Action>
    decreases schedule
  {
    if schedule == [] then []
    else [TurnAction(s, schedule[0])] + TurnActions(Turn(s, schedule[0]), schedule[1..])
  }

  lemma {:induction false} TurnsAreRun(s: State, schedule: seq<string>)
    ensures Run(s, TurnActions(s, schedule)) == Turns(s, schedule)
    ensures forall i :: 0 <= i < |TurnActions(s, schedule)| ==> !TurnActions(s, schedule)[i].ClusterCreated?
    decreases schedule
  {
    if schedule != [] {
      hide Turn;
      TurnsAreRun(Turn(s, schedule[0]), schedule[1..]);
      assert TurnActions(s, schedule)[1..] == TurnActions(Turn(s, schedule[0]), schedule[1..]);
      assert Turn(s, schedule[0]) == Step(s, TurnAction(s, schedule[0])) by { TurnSteps(s, schedule[0]); }
    }
  }

  lemma TurnSteps(s: State, name: string)
    ensures Turn(s, name) == Step(s, TurnAction(s, name))
  {
  }

  predicate GoneOrGoing(s: State, cluster: string) { !Steady(s, cluster) }

  /* --------------------------------- Cascade --------------------------------- */

  // A resource being deleted whose cluster is gone or going, wherever the pass over it is.
  predicate Draining(s: State, name: string) {
    && name in s.crs && s.crs[name].terminating && s.crs[name].finalizer
    && GoneOrGoing(s, s.crs[name].key.cluster)
  }

  // Turns a draining resource still needs at most: the decreasing measure. A pass that works on an
  // outdated copy has to fail and start over.
  function Rank(s: State, name: string): nat {
    if name !in s.crs then 0
    else if name !in s.places then 3
    else match s.places[name]
      case Resolving(_) => 7
      case Listing(_, _) => 6
      case Reading(_, _) => 5
      case Adding(_) => 4
      case Owning(_, _, _) => 4
      case Upserting(_, _, _) => 4
      case FinalResolving(cr) => if Unchanged(s, name, cr) then 2 else 5
      case Deleting(cr, _) => if Unchanged(s, name, cr) then 2 else 5
      case Dropping(cr, _) => if Unchanged(s, name, cr) then 1 else 4
  }

  lemma TurnApart(s: State, n: string, name: string)
    ensures Apart(s, Turn(s, n), n, name)
  {
    hide Advance;
    if n in s.places {
      AdvanceApart(s, n, Ok, true, name);
    }
  }

  // What its own turn does to a draining resource.
  predicate Drains(s: State, t: State, name: string) {
    if name in t.crs then Draining(t, name) && Rank(t, name) < Rank(s, name) else name !in t.places
  }

  lemma WrongTurn(s: State, name: string)
    requires Draining(s, name) && name in s.places && PlaceOk(s, name)
    requires s.places[name].Adding? || s.places[name].Owning? || s.places[name].Upserting?
    ensures Drains(s, Advance(s, name, Ok, true), name)
  {
    hide Carried, Hits;
  }

  lemma LiveTurn(s: State, name: string)
    requires Draining(s, name) && name in s.places
    requires s.places[name].Resolving? || s.places[name].Listing? || s.places[name].Reading?
    ensures Drains(s, Advance(s, name, Ok, true), name)
  {
    hide Conflict, Builtin, Hits, Unchanged;
  }

  lemma FinalTurn(s: State, name: string)
    requires Draining(s, name) && name in s.places && PlaceOk(s, name)
    requires s.places[name].FinalResolving? || s.places[name].Deleting? || s.places[name].Dropping?
    ensures Drains(s, Advance(s, name, Ok, true), name)
  {
    hide Hits;
  }

  lemma OwnTurn(s: State, name: string)
    requires Sound(s) && Draining(s, name)
    ensures Drains(s, Turn(s, name), name)
  {
    if name in s.places {
      PlaceSound(s, name);
      hide Sound, Draining, Advance, Drains;
      if s.places[name].Adding? || s.places[name].Owning? || s.places[name].Upserting? {
        WrongTurn(s, name);
      } else if s.places[name].Resolving? || s.places[name].Listing? || s.places[name].Reading? {
        LiveTurn(s, name);
      } else {
        FinalTurn(s, name);
      }
    }
  }

  /** A turn of another resource changes nothing for a draining one; its own removes it or lowers
      the measure. */
  lemma {:induction false} TurnDrains(s: State, n: string, name: string)
    requires Sound(s) && Draining(s, name)
    ensures var t := Turn(s, n);
            && Sound(t)
            && if n == name then Drains(s, t, name) else Draining(t, name) && Rank(t, name) == Rank(s, name)
  {
    StepSound(s, TurnAction(s, n));
    TurnApart(s, n, name);
    hide Turn, Sound;
    TurnSteps(s, n);
    if n == name {
      OwnTurn(s, name);
    }
  }

  lemma {:induction false} StaysGone(s: State, name: string, schedule: seq<string>)
    requires name !in s.crs && name !in s.places
    ensures name !in Turns(s, schedule).crs
    decreases schedule
  {
    if schedule != [] {
      TurnApart(s, schedule[0], name);
      StaysGone(Turn(s, schedule[0]), name, schedule[1..]);
    }
  }

  /** Once its cluster is gone or going, a deleting resource goes as soon as it has had its turns,
      wherever the pass over it was and however its turns interleave with those of all others. */
  lemma {:induction false} CascadeDrains(s: State, name: string, schedule: seq<string>)
    requires Sound(s) && Draining(s, name) && Occurs(schedule, name) >= Rank(s, name)
    ensures name !in Turns(s, schedule).crs
    decreases schedule
  {
    RankPositive(s, name);
    hide Turn, Draining, Rank;
    var n := schedule[0];
    TurnDrains(s, n, name);
    var t := Turn(s, n);
    if name in t.crs {
      CascadeDrains(t, name, schedule[1..]);
    } else {
      StaysGone(t, name, schedule[1..]);
    }
  }

  lemma RankPositive(s: State, name: string)
    requires name in s.crs
    ensures Rank(s, name) > 0
  {
  }

  // No pass is about to delete a pool of this cluster.
  ghost predicate NoneDeleting(s: State, cluster: string) {
    forall name :: name in s.places && s.places[name].Deleting? ==> s.places[name].cr.key.cluster != cluster
  }

  predicate Recreates(a: Action, cluster: string) { a.ClusterCreated? && a.cluster == cluster }

  // A pass only comes to deleting the pool when the cluster is there to stay.
  predicate DeletingOk(s: State, t: State, n: string) {
    n in t.places && t.places[n].Deleting? ==> !GoneOrGoing(s, t.places[n].cr.key.cluster)
  }

  lemma WritesToDeleting(s: State, n: string, o: Outcome, hits: bool)
    requires n in s.places && (s.places[n].Adding? || s.places[n].Owning? || s.places[n].Dropping?)
    ensures DeletingOk(s, Advance(s, n, o, hits), n)
  {
    hide Unchanged;
  }

  lemma OthersToDeleting(s: State, n: string, o: Outcome, hits: bool)
    requires n in s.places && !s.places[n].Adding? && !s.places[n].Owning? && !s.places[n].Dropping?
    ensures DeletingOk(s, Advance(s, n, o, hits), n)
  {
    hide Conflict, Builtin, Hits, Register;
  }

  // The deletes logged since `s` are for other clusters.
  predicate NewDeletesElsewhere(s: State, t: State, cluster: string) {
    && |s.deletes| <= |t.deletes| && t.deletes[..|s.deletes|] == s.deletes
    && forall i :: |s.deletes| <= i < |t.deletes| ==> t.deletes[i].cluster != cluster
  }

  lemma AdvanceNeverDeletes(s: State, n: string, o: Outcome, hits: bool, cluster: string)
    requires n in s.places && GoneOrGoing(s, cluster) && NoneDeleting(s, cluster)
    ensures var t := Advance(s, n, o, hits);
            GoneOrGoing(t, cluster) && NoneDeleting(t, cluster) && NewDeletesElsewhere(s, t, cluster)
  {
    hide Advance;
    var t := Advance(s, n, o, hits);
    AdvanceApart(s, n, o, hits, n);
    assert DeletingOk(s, t, n) by {
      if s.places[n].Adding? || s.places[n].Owning? || s.places[n].Dropping? {
        WritesToDeleting(s, n, o, hits);
      } else {
        OthersToDeleting(s, n, o, hits);
      }
    }
    forall name | name in t.places && t.places[name].Deleting?
      ensures t.places[name].cr.key.cluster != cluster
    {
      AdvanceApart(s, n, o, hits, name);
    }
  }

  lemma BeginNeverDeletes(s: State, name: string, cluster: string)
    requires GoneOrGoing(s, cluster) && NoneDeleting(s, cluster)
    ensures var t := Begin(s, name);
            GoneOrGoing(t, cluster) && NoneDeleting(t, cluster) && t.deletes == s.deletes
  {
  }

  lemma ClusterNeverDeletes(s: State, a: Action, cluster: string)
    requires a.ClusterCreated? || a.ClusterPhase? || a.ClusterDeleted? || a.ClusterGone?
    requires GoneOrGoing(s, cluster) && NoneDeleting(s, cluster) && !Recreates(a, cluster)
    ensures var t := ClusterStep(s, a);
            GoneOrGoing(t, cluster) && NoneDeleting(t, cluster) && t.deletes == s.deletes
  {
  }

  lemma StepNeverDeletes(s: State, a: Action, cluster: string)
    requires GoneOrGoing(s, cluster) && NoneDeleting(s, cluster) && !Recreates(a, cluster)
    ensures var t := Step(s, a);
            GoneOrGoing(t, cluster) && NoneDeleting(t, cluster) && NewDeletesElsewhere(s, t, cluster)
  {
    hide Advance, UserStep, ClusterStep, Begin;
    match a
    case Start(name) => BeginNeverDeletes(s, name, cluster);
    case ClusterCreated(_, _) => ClusterNeverDeletes(s, a, cluster);
    case ClusterPhase(_, _) => ClusterNeverDeletes(s, a, cluster);
    case ClusterDeleted(_) => ClusterNeverDeletes(s, a, cluster);
    case ClusterGone(_) => ClusterNeverDeletes(s, a, cluster);
    case Proceed(n, o, hits) =>
      if n in s.places {
        AdvanceNeverDeletes(s, n, o, hits, cluster);
      }
    case Create(_, _, _) => UserKeepsNomad(s, a);
    case Edit(_, _) => UserKeepsNomad(s, a);
    case Delete(_) => UserKeepsNomad(s, a);
    case _ =>
  }

  lemma ElsewhereTransitive(s: State, t: State, u: State, cluster: string)
    requires NewDeletesElsewhere(s, t, cluster) && NewDeletesElsewhere(t, u, cluster)
    ensures NewDeletesElsewhere(s, u, cluster)
  {
    assert u.deletes[..|s.deletes|] == t.deletes[..|s.deletes|];
    forall i | |s.deletes| <= i < |t.deletes|
      ensures u.deletes[i].cluster != cluster
    {
      assert u.deletes[i] == u.deletes[..|t.deletes|][i];
    }
  }

  /** Once the cluster is gone or going, no run issues a Nomad delete for a pool of it until a
      cluster of that name is created again, whatever else happens. */
  lemma {:induction false} GoneClusterNeverDeletes(s: State, actions: seq<Action>, cluster: string)
    requires GoneOrGoing(s, cluster) && NoneDeleting(s, cluster)
    requires forall i :: 0 <= i < |actions| ==> !Recreates(actions[i], cluster)
    ensures var t := Run(s, actions);
            GoneOrGoing(t, cluster) && NoneDeleting(t, cluster) && NewDeletesElsewhere(s, t, cluster)
    decreases actions
  {
    hide Step, GoneOrGoing, NoneDeleting;
    if actions != [] {
      var t := Step(s, actions[0]);
      StepNeverDeletes(s, actions[0], cluster);
      GoneClusterNeverDeletes(t, actions[1..], cluster);
      ElsewhereTransitive(s, t, Run(t, actions[1..]), cluster);
    }
  }

  /** The cascade, for all resources of the cluster at once: a schedule that gives each deleting one
      its turns removes them all, and if no pass was about to delete a pool when the cluster went, no
      Nomad delete is issued for it. */
  lemma {:induction false} CascadeCompletes(s: State, cluster: string, schedule: seq<string>)
    requires Sound(s) && GoneOrGoing(s, cluster)
    requires forall name :: name in s.crs && OfCluster(s, name, cluster) ==> Occurs(schedule, name) >= Rank(s, name)
    ensures var t := Turns(s, schedule);
            && (forall name :: name in s.crs && OfCluster(s, name, cluster) ==> name !in t.crs)
            && (NoneDeleting(s, cluster) ==> NewDeletesElsewhere(s, t, cluster))
  {
    hide Turns, Rank, Sound, GoneOrGoing, NoneDeleting, NewDeletesElsewhere;
    var t := Turns(s, schedule);
    forall name | name in s.crs && OfCluster(s, name, cluster)
      ensures name !in t.crs
    {
      CascadeDrains(s, name, schedule);
    }
    if NoneDeleting(s, cluster) {
      TurnsAreRun(s, schedule);
      GoneClusterNeverDeletes(s, TurnActions(s, schedule), cluster);
    }
  }

  // A resource of the cluster that is being deleted.
  predicate OfCluster(s: State, name: string, cluster: string)
    requires name in s.crs
  {
    s.crs[name].terminating && s.crs[name].finalizer && s.crs[name].key.cluster == cluster
  }
}
