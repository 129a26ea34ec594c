/** Loops over a set of names, where each name works on one slot of a store and several names may
    share a slot.

    If at every slot only one name acts, and acting does not change which name that is, then the
    order in which the names are visited does not matter. */
module KeyedLoop {
  import opened Api

  // What a step leaves in its slot, the calls it made, and whether it succeeded.
  datatype Slot<N, E> = Slot(node: Option<N>, effects: seq<E>, ok: bool)

  // The slot of each name, and what visiting a name does given the slot's content.
  datatype Loop<!N, !E> = Loop(key: string -> string, step: (string, Option<N>) -> Slot<N, E>)

  datatype Result<N, E> = Result(store: map<string, N>, effects: seq<E>, failed: set<string>)

  function Get<N>(store: map<string, N>, key: string): Option<N> {
    if key in store then Some(store[key]) else None
  }

  function Put<N>(store: map<string, N>, key: string, node: Option<N>): map<string, N> {
    if node.Some? then store[key := node.value] else store - {key}
  }

  function Visit<N, E>(loop: Loop<N, E>, r: Result<N, E>, name: string): Result<N, E> {
    var slot := loop.step(name, Get(r.store, loop.key(name)));
    Result(Put(r.store, loop.key(name), slot.node), r.effects + slot.effects,
           r.failed + if slot.ok then {} else {name})
  }

  function Run<N, E>(loop: Loop<N, E>, store: map<string, N>, order: seq<string>): Result<N, E> {
    if order == [] then Result(store, [], {})
    else Visit(loop, Run(loop, store, order[..|order| - 1]), order[|order| - 1])
  }

  function SetOf(order: seq<string>): set<string> {
    set n | n in order
  }

  // An iteration order of a map or set: every key once.
  ghost predicate IsOrder(order: seq<string>, keys: set<string>) {
    SetOf(order) == keys && Distinct(order)
  }

  ghost predicate Distinct(order: seq<string>) {
    forall i, j :: 0 <= i < j < |order| ==> order[i] != order[j]
  }

  // `actor` picks, from a slot and its content, the one name that acts there. Every other name
  // leaves the slot alone, calls nothing, and ends as `skips` says whatever the slot holds.
  ghost predicate SingleActor<N(!new), E>(
    loop: Loop<N, E>, names: set<string>, actor: (string, Option<N>) -> string, skips: string -> bool)
  {
    && (forall n, cur :: n in names && n != actor(loop.key(n), cur) ==>
          loop.step(n, cur) == Slot(cur, [], skips(n)))
    && (forall n, cur :: n in names && n == actor(loop.key(n), cur) ==>
          actor(loop.key(n), loop.step(n, cur).node) == n)
  }

  /* ---------------------------------- Closed form ---------------------------------- */

  // What a name would do to its slot if it were visited first.
  function First<N, E>(loop: Loop<N, E>, store: map<string, N>, name: string): Slot<N, E> {
    loop.step(name, Get(store, loop.key(name)))
  }

  // A slot's content once the names in `done` have been visited, in any order.
  function After<N, E>(loop: Loop<N, E>, actor: (string, Option<N>) -> string,
                       store: map<string, N>, done: set<string>, key: string): Option<N>
  {
    var a := actor(key, Get(store, key));
    if a in done && loop.key(a) == key then First(loop, store, a).node else Get(store, key)
  }

  function Contribution<N, E>(loop: Loop<N, E>, store: map<string, N>, order: seq<string>): seq<E> {
    if order == [] then []
    else Contribution(loop, store, order[..|order| - 1]) + First(loop, store, order[|order| - 1]).effects
  }

  function Failing<N, E>(loop: Loop<N, E>, store: map<string, N>, done: set<string>): set<string> {
    set n | n in done && !First(loop, store, n).ok
  }

  // Visiting a name after others does to its slot what visiting it first would do.
  lemma VisitMatchesFirst<N(!new), E>(
    loop: Loop<N, E>, names: set<string>, actor: (string, Option<N>) -> string, skips: string -> bool,
    store: map<string, N>, done: set<string>, name: string)
    requires SingleActor(loop, names, actor, skips)
    requires done <= names && name in names && name !in done
    ensures var key := loop.key(name);
            var slot := loop.step(name, After(loop, actor, store, done, key));
            && slot.node == After(loop, actor, store, done + {name}, key)
            && slot.effects == First(loop, store, name).effects
            && slot.ok == First(loop, store, name).ok
  {
    var key := loop.key(name);
    var a := actor(key, Get(store, key));
    if a != name && a in done && loop.key(a) == key {
      assert actor(key, loop.step(a, Get(store, key)).node) == a;
    }
  }

  /** A run over distinct names has the closed form given by `After`, `Contribution`, `Failing`. */
  lemma {:induction false} RunClosedForm<N(!new), E>(
    loop: Loop<N, E>, names: set<string>, actor: (string, Option<N>) -> string, skips: string -> bool,
    store: map<string, N>, order: seq<string>)
    requires SingleActor(loop, names, actor, skips)
    requires SetOf(order) <= names && Distinct(order)
    ensures var r := Run(loop, store, order);
            && (forall key :: Get(r.store, key) == After(loop, actor, store, SetOf(order), key))
            && r.effects == Contribution(loop, store, order)
            && r.failed == Failing(loop, store, SetOf(order))
  {
    if order != [] {
      var front, last := order[..|order| - 1], order[|order| - 1];
      assert order == front + [last];
      assert SetOf(order) == SetOf(front) + {last};
      assert last !in SetOf(front);
      RunClosedForm(loop, names, actor, skips, store, front);
      ClosedFormStep(loop, names, actor, skips, store, SetOf(front), Run(loop, store, front), last);
    }
  }

  lemma ClosedFormStep<N(!new), E>(
    loop: Loop<N, E>, names: set<string>, actor: (string, Option<N>) -> string, skips: string -> bool,
    store: map<string, N>, done: set<string>, r: Result<N, E>, name: string)
    requires SingleActor(loop, names, actor, skips)
    requires done <= names && name in names && name !in done
    requires forall key :: Get(r.store, key) == After(loop, actor, store, done, key)
    requires r.failed == Failing(loop, store, done)
    ensures var r' := Visit(loop, r, name);
            && (forall key :: Get(r'.store, key) == After(loop, actor, store, done + {name}, key))
            && r'.effects == r.effects + First(loop, store, name).effects
            && r'.failed == Failing(loop, store, done + {name})
  {
    VisitMatchesFirst(loop, names, actor, skips, store, done, name);
    assert Get(r.store, loop.key(name)) == After(loop, actor, store, done, loop.key(name));
    var r' := Visit(loop, r, name);
    forall key ensures Get(r'.store, key) == After(loop, actor, store, done + {name}, key) {
      assert Get(r.store, key) == After(loop, actor, store, done, key);
    }
  }

  lemma SameStore<N>(a: map<string, N>, b: map<string, N>)
    requires forall key :: Get(a, key) == Get(b, key)
    ensures a == b
  {
    assert forall key :: key in a <==> Get(a, key).Some?;
    assert forall key :: key in b <==> Get(b, key).Some?;
    forall key | key in a ensures key in b && a[key] == b[key] {
      assert Get(a, key) == Get(b, key);
    }
  }

  /* ------------------------------- Permuting the order ------------------------------- */

  function CallsOf<N, E>(loop: Loop<N, E>, store: map<string, N>, name: string): multiset<E> {
    multiset(First(loop, store, name).effects)
  }

  // The calls of an order, without their order.
  function Calls<N, E>(loop: Loop<N, E>, store: map<string, N>, order: seq<string>): multiset<E> {
    if order == [] then multiset{}
    else Calls(loop, store, order[..|order| - 1]) + CallsOf(loop, store, order[|order| - 1])
  }

  lemma {:induction false} CallsAreContribution<N, E>(loop: Loop<N, E>, store: map<string, N>, order: seq<string>)
    ensures multiset(Contribution(loop, store, order)) == Calls(loop, store, order)
  {
    if order != [] {
      CallsAreContribution(loop, store, order[..|order| - 1]);
    }
  }

  lemma CallsSnoc<N, E>(loop: Loop<N, E>, store: map<string, N>, order: seq<string>, last: string)
    ensures Calls(loop, store, order + [last]) == Calls(loop, store, order) + CallsOf(loop, store, last)
  {
    assert (order + [last])[..|order|] == order;
  }

  // Removing a name from an order removes its calls, wherever it stood.
  lemma {:induction false} CallsRemove<N, E>(
    loop: Loop<N, E>, store: map<string, N>, front: seq<string>, name: string, back: seq<string>)
    ensures Calls(loop, store, front + [name] + back)
         == Calls(loop, store, front + back) + CallsOf(loop, store, name)
  {
    hide CallsOf;
    if back == [] {
      assert front + [name] + [] == front + [name] && front + [] == front;
      CallsSnoc(loop, store, front, name);
    } else {
      var init, last := back[..|back| - 1], back[|back| - 1];
      assert back == init + [last];
      CallsRemove(loop, store, front, name, init);
      CallsSnoc(loop, store, front + [name] + init, last);
      CallsSnoc(loop, store, front + init, last);
      assert front + [name] + back == (front + [name] + init) + [last];
      assert front + back == (front + init) + [last];
    }
  }

  lemma MultisetRemove(b: seq<string>, i: nat)
    requires i < |b|
    ensures multiset(b[..i] + b[i + 1..]) == multiset(b) - multiset{b[i]}
    ensures b == b[..i] + [b[i]] + b[i + 1..]
  {
    assert b == b[..i] + [b[i]] + b[i + 1..];
  }

  lemma {:induction false} CallsPermuted<N, E>(
    loop: Loop<N, E>, store: map<string, N>, a: seq<string>, b: seq<string>)
    requires multiset(a) == multiset(b)
    ensures Calls(loop, store, a) == Calls(loop, store, b)
    decreases |a|
  {
    hide CallsOf;
    if a == [] {
      assert |multiset(a)| == 0;
      assert |multiset(b)| == |b|;
    } else {
      var front, last := a[..|a| - 1], a[|a| - 1];
      assert a == front + [last];
      assert last in multiset(b);
      var i :| 0 <= i < |b| && b[i] == last;
      MultisetRemove(b, i);
      CallsRemove(loop, store, b[..i], last, b[i + 1..]);
      CallsPermuted(loop, store, front, b[..i] + b[i + 1..]);
    }
  }

  lemma {:induction false} OrderCounts(a: seq<string>, n: string)
    requires Distinct(a)
    ensures multiset(a)[n] == if n in a then 1 else 0
  {
    if a != [] {
      var front, last := a[..|a| - 1], a[|a| - 1];
      assert a == front + [last];
      OrderCounts(front, n);
    }
  }

  lemma OrdersArePermutations(a: seq<string>, b: seq<string>, keys: set<string>)
    requires IsOrder(a, keys) && IsOrder(b, keys)
    ensures multiset(a) == multiset(b)
  {
    forall n ensures multiset(a)[n] == multiset(b)[n] {
      OrderCounts(a, n);
      OrderCounts(b, n);
      assert n in a <==> n in SetOf(a);
      assert n in b <==> n in SetOf(b);
    }
  }

  /** Confluence: with a single actor at every slot, all orders end in the same store, make the
      same multiset of calls and fail for the same names. */
  lemma {:induction false} Confluent<N(!new), E>(
    loop: Loop<N, E>, names: set<string>, actor: (string, Option<N>) -> string, skips: string -> bool,
    store: map<string, N>, a: seq<string>, b: seq<string>)
    requires SingleActor(loop, names, actor, skips)
    requires IsOrder(a, names) && IsOrder(b, names)
    ensures var ra, rb := Run(loop, store, a), Run(loop, store, b);
            && ra.store == rb.store
            && multiset(ra.effects) == multiset(rb.effects)
            && ra.failed == rb.failed
  {
    RunClosedForm(loop, names, actor, skips, store, a);
    RunClosedForm(loop, names, actor, skips, store, b);
    SameStore(Run(loop, store, a).store, Run(loop, store, b).store);
    OrdersArePermutations(a, b, names);
    CallsPermuted(loop, store, a, b);
    CallsAreContribution(loop, store, a);
    CallsAreContribution(loop, store, b);
  }

  /** What one slot holds after a whole loop without failures: the work of its actor, if the actor
      works on that slot at all. */
  lemma ActedSlot<N(!new), E>(
    loop: Loop<N, E>, names: set<string>, actor: (string, Option<N>) -> string, skips: string -> bool,
    store: map<string, N>, order: seq<string>, key: string)
    requires SingleActor(loop, names, actor, skips) && IsOrder(order, names)
    requires Run(loop, store, order).failed == {}
    ensures var a := actor(key, Get(store, key));
            var after := Get(Run(loop, store, order).store, key);
            if a in names && loop.key(a) == key
            then loop.step(a, Get(store, key)).ok && after == loop.step(a, Get(store, key)).node
            else after == Get(store, key)
  {
    RunClosedForm(loop, names, actor, skips, store, order);
    var a := actor(key, Get(store, key));
    assert a !in Failing(loop, store, SetOf(order));
    assert Get(Run(loop, store, order).store, key) == After(loop, actor, store, names, key);
  }

  /* -------------------------- Stopping at the first failure -------------------------- */

  function RunUntilFailure<N, E>(loop: Loop<N, E>, store: map<string, N>, order: seq<string>): Result<N, E> {
    if order == [] then Result(store, [], {})
    else
      var r := RunUntilFailure(loop, store, order[..|order| - 1]);
      if r.failed != {} then r else Visit(loop, r, order[|order| - 1])
  }

  /** A loop that returns on the first error ran a prefix of its order, and all of it when nothing
      failed. */
  lemma {:induction false} StoppedRunIsPrefix<N, E>(loop: Loop<N, E>, store: map<string, N>, order: seq<string>)
    returns (k: nat)
    ensures k <= |order|
    ensures RunUntilFailure(loop, store, order) == Run(loop, store, order[..k])
    ensures RunUntilFailure(loop, store, order).failed == {} ==> k == |order| && order[..k] == order
  {
    if order == [] {
      k := 0;
    } else {
      var front := order[..|order| - 1];
      k := StoppedRunIsPrefix(loop, store, front);
      if RunUntilFailure(loop, store, front).failed == {} {
        k := |order|;
        assert order[..k] == order;
      } else {
        assert order[..k] == front[..k];
      }
    }
  }

  // Names left over after the failure do not matter.
  lemma {:induction false} StoppedStays<N, E>(loop: Loop<N, E>, store: map<string, N>, order: seq<string>, rest: seq<string>)
    requires RunUntilFailure(loop, store, order).failed != {}
    ensures RunUntilFailure(loop, store, order + rest) == RunUntilFailure(loop, store, order)
  {
    if rest == [] {
      assert order + rest == order;
    } else {
      StoppedStays(loop, store, order, rest[..|rest| - 1]);
      assert (order + rest)[..|order + rest| - 1] == order + rest[..|rest| - 1];
    }
  }

  /* ------------------------------------ Invariants ------------------------------------ */

  ghost predicate StepKeeps<N, E>(
    loop: Loop<N, E>, inv: (string, Option<N>) -> bool, safe: E -> bool, n: string, cur: Option<N>)
  {
    && inv(loop.key(n), loop.step(n, cur).node)
    && forall e :: e in loop.step(n, cur).effects ==> safe(e)
  }

  /** What every step keeps at its slot, every run keeps at every slot; calls that are safe at
      every step are safe over the run. */
  lemma {:induction false} RunKeeps<N(!new), E>(
    loop: Loop<N, E>, names: set<string>, inv: (string, Option<N>) -> bool, safe: E -> bool,
    store: map<string, N>, order: seq<string>)
    requires forall n, cur :: n in names && inv(loop.key(n), cur) ==> StepKeeps(loop, inv, safe, n, cur)
    requires SetOf(order) <= names
    requires forall key :: inv(key, Get(store, key))
    ensures forall key :: inv(key, Get(Run(loop, store, order).store, key))
    ensures forall e :: e in Run(loop, store, order).effects ==> safe(e)
  {
    if order != [] {
      var front, last := order[..|order| - 1], order[|order| - 1];
      assert order == front + [last];
      assert last in SetOf(order) && SetOf(front) <= SetOf(order);
      RunKeeps(loop, names, inv, safe, store, front);
      var r := Run(loop, store, front);
      assert StepKeeps(loop, inv, safe, last, Get(r.store, loop.key(last)));
      forall key ensures inv(key, Get(Visit(loop, r, last).store, key)) {
        assert inv(key, Get(r.store, key));
      }
    }
  }

  ghost predicate StepEstablishes<N, E>(
    loop: Loop<N, E>, post: (string, Option<N>) -> bool, n: string, cur: Option<N>)
  {
    loop.step(n, cur).ok || post(loop.key(n), cur) ==> post(loop.key(n), loop.step(n, cur).node)
  }

  /** What a successful step establishes at its slot, and no step breaks, holds at every visited
      slot after a run without failures. */
  lemma {:induction false} RunEstablishes<N(!new), E>(
    loop: Loop<N, E>, post: (string, Option<N>) -> bool, store: map<string, N>, order: seq<string>)
    requires forall n, cur :: StepEstablishes(loop, post, n, cur)
    requires Run(loop, store, order).failed == {}
    ensures forall n :: n in order ==> post(loop.key(n), Get(Run(loop, store, order).store, loop.key(n)))
  {
    if order != [] {
      var front, last := order[..|order| - 1], order[|order| - 1];
      assert order == front + [last];
      RunEstablishes(loop, post, store, front);
      var r := Run(loop, store, front);
      assert StepEstablishes(loop, post, last, Get(r.store, loop.key(last)));
      forall n | n in order
        ensures post(loop.key(n), Get(Run(loop, store, order).store, loop.key(n)))
      {
        if n != last { assert n in front; }
      }
    }
  }

  /** Slots no visited name works on are left alone. */
  lemma {:induction false} RunFrame<N, E>(loop: Loop<N, E>, store: map<string, N>, order: seq<string>, key: string)
    requires forall n :: n in order ==> loop.key(n) != key
    ensures Get(Run(loop, store, order).store, key) == Get(store, key)
  {
    if order != [] {
      RunFrame(loop, store, order[..|order| - 1], key);
    }
  }

  lemma {:induction false} RunConcat<N, E>(loop: Loop<N, E>, store: map<string, N>, a: seq<string>, b: seq<string>)
    ensures Run(loop, store, a + b).store == Run(loop, Run(loop, store, a).store, b).store
  {
    if b == [] {
      assert a + b == a;
    } else {
      RunConcat(loop, store, a, b[..|b| - 1]);
      assert (a + b)[..|a + b| - 1] == a + b[..|b| - 1];
    }
  }

  lemma OrderExists(keys: set<string>) returns (order: seq<string>)
    ensures IsOrder(order, keys)
  {
    if keys == {} {
      order := [];
    } else {
      var k :| k in keys;
      var rest := OrderExists(keys - {k});
      order := [k] + rest;
      assert forall n :: n in rest ==> n in SetOf(rest);
      assert SetOf(order) == SetOf(rest) + {k};
    }
  }

  // Any member can come first.
  lemma OrderStartingWith(keys: set<string>, first: string) returns (rest: seq<string>)
    requires first in keys
    ensures IsOrder([first] + rest, keys)
  {
    rest := OrderExists(keys - {first});
    assert forall n :: n in rest ==> n in SetOf(rest);
    assert SetOf([first] + rest) == SetOf(rest) + {first};
  }

  // An order of the names still pending completes the order of those already visited.
  lemma OrderCompletes(keys: set<string>, visited: seq<string>, pending: set<string>) returns (rest: seq<string>)
    requires Distinct(visited) && SetOf(visited) !! pending && SetOf(visited) + pending == keys
    ensures IsOrder(visited + rest, keys)
  {
    rest := OrderExists(pending);
    assert forall n :: n in rest ==> n in SetOf(rest);
    assert forall n :: n in visited ==> n in SetOf(visited);
    var all := visited + rest;
    forall i, j | 0 <= i < j < |all| ensures all[i] != all[j] {
      if i < |visited| <= j { assert all[i] in SetOf(visited) && all[j] in SetOf(rest); }
    }
    assert SetOf(all) == SetOf(visited) + SetOf(rest);
  }

  lemma OrderSnoc(visited: seq<string>, name: string)
    requires Distinct(visited) && name !in SetOf(visited)
    ensures Distinct(visited + [name]) && SetOf(visited + [name]) == SetOf(visited) + {name}
    ensures (visited + [name])[..|visited|] == visited
  {
    assert forall n :: n in visited ==> n in SetOf(visited);
  }

  lemma EmptyOrder(order: seq<string>)
    ensures SetOf(order) == {} <==> order == []
  {
    if order != [] { assert order[0] in SetOf(order); }
  }

  // Visiting one more name extends the run.
  lemma RunSnoc<N, E>(loop: Loop<N, E>, store: map<string, N>, order: seq<string>, name: string)
    ensures Run(loop, store, order + [name]) == Visit(loop, Run(loop, store, order), name)
    ensures RunUntilFailure(loop, store, order).failed == {} ==>
              RunUntilFailure(loop, store, order + [name]) == Visit(loop, RunUntilFailure(loop, store, order), name)
  {
    assert (order + [name])[..|order|] == order;
  }

  lemma RunOfNone<N, E>(loop: Loop<N, E>, store: map<string, N>)
    ensures Run(loop, store, []) == Result(store, [], {}) == RunUntilFailure(loop, store, [])
  {
  }
}
