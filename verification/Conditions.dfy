/** Status conditions: a list the controllers update in place, one entry for each condition type.

    `SetCondition` and `SetNodeCondition` are the program's two upsert loops; both are proved to
    compute `Upsert`. The lemmas say what a whole history of upserts leaves behind. */
module Conditions {
  import opened Api

  datatype Status = True | False | Unknown

  datatype Condition = Condition(
    kind: string, status: Status, reason: string, message: string,
    observedGeneration: int, since: int)

  // One call: the arguments, the object's generation and the clock at the time of the call.
  datatype Call = Call(
    kind: string, status: Status, reason: string, message: string,
    generation: int, now: int)

  function Stamp(c: Call, since: int): Condition {
    Condition(c.kind, c.status, c.reason, c.message, c.generation, since)
  }

  // The entry a call leaves for its type, given the entry that was there before.
  function Stamped(before: Option<Condition>, c: Call): Condition {
    Stamp(c, if before.Some? && before.value.status == c.status then before.value.since else c.now)
  }

  function Find(list: seq<Condition>, kind: string): Option<Condition> {
    if list == [] then None
    else if list[0].kind == kind then Some(list[0])
    else Find(list[1..], kind)
  }

  function Upsert(list: seq<Condition>, c: Call): seq<Condition> {
    if list == [] then [Stamped(None, c)]
    else if list[0].kind == c.kind then [Stamped(Some(list[0]), c)] + list[1..]
    else [list[0]] + Upsert(list[1..], c)
  }

  ghost predicate UniqueKinds(list: seq<Condition>) {
    forall i, j :: 0 <= i < j < |list| ==> list[i].kind != list[j].kind
  }

  /* --------------------------------- The loops --------------------------------- */

  class StatusObject {
    var generation: int
    var conditions: seq<Condition>

    method SetCondition(kind: string, status: Status, reason: string, message: string, now: int)
      modifies this`conditions
      ensures conditions == Upsert(old(conditions), Call(kind, status, reason, message, generation, now))
    {
      var cond := Condition(kind, status, reason, message, generation, now);
      for i := 0 to |conditions|
        invariant conditions == old(conditions)
        invariant forall j :: 0 <= j < i ==> conditions[j].kind != kind
      {
        if conditions[i].kind == kind {
          if conditions[i].status == status {
            cond := cond.(since := conditions[i].since);
          }
          UpsertAt(conditions, i, Call(kind, status, reason, message, generation, now));
          conditions := conditions[i := cond];
          return;
        }
      }
      UpsertNew(conditions, Call(kind, status, reason, message, generation, now));
      conditions := conditions + [cond];
    }

    method SetNodeCondition(kind: string, status: Status, reason: string, message: string, now: int)
      modifies this`conditions
      ensures conditions == Upsert(old(conditions), Call(kind, status, reason, message, generation, now))
    {
      for i := 0 to |conditions|
        invariant conditions == old(conditions)
        invariant forall j :: 0 <= j < i ==> conditions[j].kind != kind
      {
        var c := conditions[i];
        if c.kind == kind {
          var since := c.since;
          if c.status != status {
            since := now;
          }
          UpsertAt(conditions, i, Call(kind, status, reason, message, generation, now));
          conditions := conditions[i := Condition(kind, status, reason, message, generation, since)];
          return;
        }
      }
      UpsertNew(conditions, Call(kind, status, reason, message, generation, now));
      conditions := conditions + [Condition(kind, status, reason, message, generation, now)];
    }
  }

  lemma {:induction false} UpsertAt(list: seq<Condition>, i: nat, c: Call)
    requires i < |list| && list[i].kind == c.kind
    requires forall j :: 0 <= j < i ==> list[j].kind != c.kind
    ensures Upsert(list, c) == list[i := Stamped(Some(list[i]), c)]
  {
    if i > 0 {
      UpsertAt(list[1..], i - 1, c);
    }
  }

  lemma {:induction false} UpsertNew(list: seq<Condition>, c: Call)
    requires forall j :: 0 <= j < |list| ==> list[j].kind != c.kind
    ensures Upsert(list, c) == list + [Stamped(None, c)]
  {
    if list != [] {
      UpsertNew(list[1..], c);
    }
  }

  /* ---------------------------- The list as a map ---------------------------- */

  lemma {:induction false} FindUpsert(list: seq<Condition>, c: Call, kind: string)
    ensures Find(Upsert(list, c), kind)
         == if kind == c.kind then Some(Stamped(Find(list, kind), c)) else Find(list, kind)
  {
    if list != [] {
      var up := Upsert(list, c);
      if list[0].kind == c.kind {
        assert up[1..] == list[1..];
      } else {
        assert up[1..] == Upsert(list[1..], c);
        FindUpsert(list[1..], c, kind);
      }
    }
  }

  lemma {:induction false} KindsUpsert(list: seq<Condition>, c: Call)
    ensures var up := Upsert(list, c);
            && |list| <= |up| <= |list| + 1
            && (forall i :: 0 <= i < |list| ==> up[i].kind == list[i].kind)
            && (|up| > |list| ==>
                  && up[|list|].kind == c.kind
                  && forall i :: 0 <= i < |list| ==> list[i].kind != c.kind)
  {
    if list != [] && list[0].kind != c.kind {
      KindsUpsert(list[1..], c);
      var up, tail := Upsert(list, c), Upsert(list[1..], c);
      assert up[1..] == tail;
      forall i | 0 <= i < |list| ensures up[i].kind == list[i].kind {
        if i > 0 { assert up[i] == tail[i - 1]; }
      }
      if |up| > |list| {
        assert up[|list|] == tail[|list| - 1];
        forall i | 0 <= i < |list| ensures list[i].kind != c.kind {
          if i > 0 { assert list[i] == list[1..][i - 1]; }
        }
      }
    }
  }

  /* --------------------------------- Histories --------------------------------- */

  function Replay(list: seq<Condition>, calls: seq<Call>): seq<Condition> {
    if calls == [] then list
    else Upsert(Replay(list, calls[..|calls| - 1]), calls[|calls| - 1])
  }

  // The calls for one type, in order.
  function OfKind(calls: seq<Call>, kind: string): seq<Call> {
    if calls == [] then []
    else
      var last := calls[|calls| - 1];
      OfKind(calls[..|calls| - 1], kind) + if last.kind == kind then [last] else []
  }

  // From position k on, every call sets the final status, and k cannot be moved earlier.
  ghost predicate StartsLastRun(history: seq<Call>, k: nat) {
    && k < |history|
    && (forall j :: k <= j < |history| ==> history[j].status == history[|history| - 1].status)
    && (k > 0 ==> history[k - 1].status != history[|history| - 1].status)
  }

  /** No history of upserts ever stores two entries of one type. */
  lemma {:induction false} ReplayKeepsKindsUnique(list: seq<Condition>, calls: seq<Call>)
    requires UniqueKinds(list)
    ensures UniqueKinds(Replay(list, calls))
  {
    if calls != [] {
      var before := calls[..|calls| - 1];
      ReplayKeepsKindsUnique(list, before);
      KindsUpsert(Replay(list, before), calls[|calls| - 1]);
    }
  }

  lemma {:induction false} FindReplay(list: seq<Condition>, calls: seq<Call>, kind: string)
    ensures Find(Replay(list, calls), kind)
         == if OfKind(calls, kind) == [] then Find(list, kind)
            else
              var h := OfKind(calls, kind);
              Some(Stamped(Find(Replay(list, CallsBeforeLast(calls, kind)), kind), h[|h| - 1]))
    ensures OfKind(calls, kind) != [] ==>
              |CallsBeforeLast(calls, kind)| < |calls|
              && OfKind(calls, kind)
                 == OfKind(CallsBeforeLast(calls, kind), kind) + [OfKind(calls, kind)[|OfKind(calls, kind)| - 1]]
  {
    if calls != [] {
      var before, last := calls[..|calls| - 1], calls[|calls| - 1];
      FindUpsert(Replay(list, before), last, kind);
      if last.kind != kind {
        FindReplay(list, before, kind);
      }
    }
  }

  // The calls made before the last call for a type.
  function CallsBeforeLast(calls: seq<Call>, kind: string): seq<Call> {
    if calls == [] then []
    else if calls[|calls| - 1].kind == kind then calls[..|calls| - 1]
    else CallsBeforeLast(calls[..|calls| - 1], kind)
  }

  /** What a history leaves for one type: the last call's status, reason, message and generation,
      and the clock of the first call in the last run of equal statuses. A run that reaches back
      to the first call also extends an entry of the same status that was there before. */
  lemma {:induction false} ReplayLastTransition(list: seq<Condition>, calls: seq<Call>, kind: string, k: nat)
    requires StartsLastRun(OfKind(calls, kind), k)
    ensures var h := OfKind(calls, kind);
            var last := h[|h| - 1];
            var prior := Find(list, kind);
            Find(Replay(list, calls), kind)
            == Some(Stamp(last, if k == 0 && prior.Some? && prior.value.status == last.status
                                then prior.value.since else h[k].now))
    decreases |calls|
  {
    var h := OfKind(calls, kind);
    var before := CallsBeforeLast(calls, kind);
    var g := OfKind(before, kind);
    FindReplay(list, calls, kind);
    assert h == g + [h[|h| - 1]];
    if g == [] {
      FindReplay(list, before, kind);
      assert k == 0;
    } else if k < |h| - 1 {
      assert forall j :: 0 <= j < |g| ==> g[j] == h[j];
      assert g[|g| - 1] == h[|h| - 2];
      assert StartsLastRun(g, k);
      ReplayLastTransition(list, before, kind, k);
    } else {
      assert h[|h| - 2] == g[|g| - 1];
      var j := RunStart(g);
      ReplayLastTransition(list, before, kind, j);
    }
  }

  /** In the condition's own fields: what the last call for a type said, and when. */
  lemma LastCallStored(list: seq<Condition>, calls: seq<Call>, kind: string, k: nat)
    requires StartsLastRun(OfKind(calls, kind), k)
    ensures var h := OfKind(calls, kind);
            var last := h[|h| - 1];
            var stored := Find(Replay(list, calls), kind);
            && stored.Some? && stored.value.kind == kind && stored.value.status == last.status
            && stored.value.reason == last.reason && stored.value.message == last.message
            && stored.value.observedGeneration == last.generation
            && stored.value.since == (if k == 0 && Find(list, kind).Some? && Find(list, kind).value.status == last.status
                                      then Find(list, kind).value.since else h[k].now)
  {
    ReplayLastTransition(list, calls, kind, k);
    OfKindIs(calls, kind);
  }

  lemma {:induction false} OfKindIs(calls: seq<Call>, kind: string)
    ensures forall i :: 0 <= i < |OfKind(calls, kind)| ==> OfKind(calls, kind)[i].kind == kind
  {
    if calls != [] {
      OfKindIs(calls[..|calls| - 1], kind);
    }
  }

  /** Types a history never mentions keep their entry. */
  lemma ReplayFrame(list: seq<Condition>, calls: seq<Call>, kind: string)
    requires OfKind(calls, kind) == []
    ensures Find(Replay(list, calls), kind) == Find(list, kind)
  {
    FindReplay(list, calls, kind);
  }

  function RunStart(history: seq<Call>): (k: nat)
    requires history != []
    ensures StartsLastRun(history, k)
  {
    var n := |history|;
    if n == 1 || history[n - 2].status != history[n - 1].status then n - 1
    else RunStart(history[..n - 1])
  }
}
