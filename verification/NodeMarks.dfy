/** The loop that marks ambiguous names is not order independent: an object it has to create is
    named after whichever colliding name comes first. This module says exactly when that shows. */
module NodeMarks {
  import opened Api
  import opened NodeTypes
  import opened Sanitizer
  import opened KeyedLoop
  import opened Upsert
  import opened NodePass
  import opened NodeReflection

  // The marking loop when every call succeeds.
  function CleanLoop(cluster: string): Loop<Node, Effect> {
    MarkLoop(cluster, map[])
  }

  function RunMarks(store: Store, cluster: string, order: seq<string>): Store {
    RunUntilFailure(CleanLoop(cluster), store, order).store
  }

  function Minted(name: string, cluster: string): Node {
    Marked(Unbound(name, cluster))
  }

  lemma CleanStep(cluster: string, name: string, cur: Option<Node>)
    ensures var slot := CleanLoop(cluster).step(name, cur);
            slot.ok && slot.node == Some(if cur.Some? then Marked(cur.value) else Minted(name, cluster))
  {
  }

  lemma {:induction false} CleanRun(store: Store, cluster: string, order: seq<string>)
    ensures Run(CleanLoop(cluster), store, order).failed == {}
    ensures RunUntilFailure(CleanLoop(cluster), store, order) == Run(CleanLoop(cluster), store, order)
  {
    if order != [] {
      var front, last := order[..|order| - 1], order[|order| - 1];
      CleanRun(store, cluster, front);
      var r := Run(CleanLoop(cluster), store, front);
      CleanStep(cluster, last, Get(r.store, ObjectName(last)));
    }
  }

  // What can stand under an object name while the loop runs.
  ghost predicate Reachable(store: Store, cluster: string, names: set<string>, obj: string, cur: Option<Node>) {
    || cur == Get(store, obj)
    || (obj in store && cur == Some(Marked(store[obj])))
    || (obj !in store && exists n :: n in names && ObjectName(n) == obj && cur == Some(Minted(n, cluster)))
  }

  predicate IsMarked(cur: Option<Node>) {
    cur.Some? && cur.value == Marked(cur.value)
  }

  lemma MarkReaches(store: Store, cluster: string, order: seq<string>)
    ensures var after := Run(CleanLoop(cluster), store, order).store;
            && (forall obj :: Reachable(store, cluster, SetOf(order), obj, Get(after, obj)))
            && (forall n :: n in order ==> IsMarked(Get(after, ObjectName(n))))
            && (forall obj :: (forall n :: n in order ==> ObjectName(n) != obj) ==> Get(after, obj) == Get(store, obj))
  {
    var loop := CleanLoop(cluster);
    var names := SetOf(order);
    var inv := (obj: string, cur: Option<Node>) => Reachable(store, cluster, names, obj, cur);
    forall n, cur | n in names && inv(loop.key(n), cur) ensures StepKeeps(loop, inv, e => true, n, cur) {
      CleanStep(cluster, n, cur);
    }
    RunKeeps(loop, names, inv, e => true, store, order);
    var post := (obj: string, cur: Option<Node>) => IsMarked(cur);
    forall n, cur ensures StepEstablishes(loop, post, n, cur) {
      CleanStep(cluster, n, cur);
    }
    CleanRun(store, cluster, order);
    RunEstablishes(loop, post, store, order);
    forall obj | forall n :: n in order ==> ObjectName(n) != obj
      ensures Get(Run(loop, store, order).store, obj) == Get(store, obj)
    {
      RunFrame(loop, store, order, obj);
    }
  }

  // No two of the names compete for an object that does not exist yet.
  ghost predicate NoContest(store: Store, names: set<string>) {
    forall a, b :: a in names && b in names && a != b && ObjectName(a) == ObjectName(b) ==> ObjectName(a) in store
  }

  ghost predicate OrderIrrelevant(store: Store, cluster: string, names: set<string>) {
    forall a, b :: IsOrder(a, names) && IsOrder(b, names) ==>
      RunMarks(store, cluster, a) == RunMarks(store, cluster, b)
  }

  lemma NoContestMeansConfluent(store: Store, cluster: string, names: set<string>, a: seq<string>, b: seq<string>)
    requires NoContest(store, names) && IsOrder(a, names) && IsOrder(b, names)
    ensures RunMarks(store, cluster, a) == RunMarks(store, cluster, b)
  {
    CleanRun(store, cluster, a);
    CleanRun(store, cluster, b);
    MarkReaches(store, cluster, a);
    MarkReaches(store, cluster, b);
    var ra, rb := Run(CleanLoop(cluster), store, a).store, Run(CleanLoop(cluster), store, b).store;
    forall obj ensures Get(ra, obj) == Get(rb, obj) {
      assert Reachable(store, cluster, names, obj, Get(ra, obj)) && Reachable(store, cluster, names, obj, Get(rb, obj));
      if n :| n in names && ObjectName(n) == obj {
        assert n in SetOf(a) && n in SetOf(b);
        assert IsMarked(Get(ra, ObjectName(n))) && IsMarked(Get(rb, ObjectName(n)));
      } else {
        assert forall n :: n in a ==> n in SetOf(a);
        assert forall n :: n in b ==> n in SetOf(b);
      }
    }
    SameStore(ra, rb);
  }

  // The first name to reach an object that does not exist gives it its node name for good.
  lemma FirstNames(store: Store, cluster: string, first: string, rest: seq<string>)
    requires ObjectName(first) !in store
    ensures var after := RunMarks(store, cluster, [first] + rest);
            ObjectName(first) in after && after[ObjectName(first)].nodeName == first
  {
    var loop := CleanLoop(cluster);
    var obj := ObjectName(first);
    CleanRun(store, cluster, [first] + rest);
    RunConcat(loop, store, [first], rest);
    var one := Run(loop, store, [first]).store;
    CleanStep(cluster, first, None);
    assert [first][..0] == [];
    assert Get(one, obj) == Some(Minted(first, cluster));
    CleanRun(one, cluster, rest);
    MarksKeep(one, cluster, Orders([], rest, [], []), PassFaults(map[], map[], true, map[], true, map[]));
    assert KeptFrom(Get(one, obj), Get(RunMarks(one, cluster, rest), obj));
  }

  lemma ContestShows(store: Store, cluster: string, names: set<string>, a: string, b: string)
    requires a in names && b in names && a != b && ObjectName(a) == ObjectName(b) && ObjectName(a) !in store
    ensures !OrderIrrelevant(store, cluster, names)
  {
    var resta := OrderStartingWith(names, a);
    var restb := OrderStartingWith(names, b);
    FirstNames(store, cluster, a, resta);
    FirstNames(store, cluster, b, restb);
    assert RunMarks(store, cluster, [a] + resta) != RunMarks(store, cluster, [b] + restb);
  }

  /** Marking is independent of map order exactly when no two ambiguous names share an object name
      that does not exist yet. */
  lemma MarksConfluentIff(store: Store, cluster: string, names: set<string>)
    ensures OrderIrrelevant(store, cluster, names) <==> NoContest(store, names)
  {
    if NoContest(store, names) {
      forall a, b | IsOrder(a, names) && IsOrder(b, names)
        ensures RunMarks(store, cluster, a) == RunMarks(store, cluster, b)
      {
        NoContestMeansConfluent(store, cluster, names, a, b);
      }
    } else {
      var a, b :| a in names && b in names && a != b && ObjectName(a) == ObjectName(b) && ObjectName(a) !in store;
      ContestShows(store, cluster, names, a, b);
    }
  }

  /** Two ambiguous names that differ only in case show it on an empty store. */
  lemma MarksOrderMatters(cluster: string)
    ensures !OrderIrrelevant(map[], cluster, {"A", "a"})
  {
    assert ToLower("A") == ToLower("a");
    assert ObjectName("A") == ObjectName("a");
    assert !NoContest(map[], {"A", "a"});
    MarksConfluentIff(map[], cluster, {"A", "a"});
  }
}
