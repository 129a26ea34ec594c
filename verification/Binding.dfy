/** Which Nomad node stands behind a node name, and which node name owns an object name. */
module Binding {
  import opened Api
  import opened NodeTypes
  import opened Sanitizer

  /* ------------------------------- Specification ------------------------------- */

  function NamesOf(stubs: seq<Stub>): set<string> {
    set s | s in stubs :: s.name
  }

  function Group(stubs: seq<Stub>, name: string): seq<Stub> {
    if stubs == [] then []
    else
      var last := stubs[|stubs| - 1];
      Group(stubs[..|stubs| - 1], name) + if last.name == name then [last] else []
  }

  function Live(group: seq<Stub>): seq<Stub> {
    if group == [] then []
    else
      var last := group[|group| - 1];
      Live(group[..|group| - 1]) + if last.health != Down then [last] else []
  }

  // The first stub with the largest creation index.
  function Freshest(group: seq<Stub>): Stub
    requires group != []
  {
    var last := group[|group| - 1];
    if |group| == 1 then last
    else
      var best := Freshest(group[..|group| - 1]);
      if last.createIndex > best.createIndex then last else best
  }

  function Pick(group: seq<Stub>): Stub
    requires group != []
  {
    if |Live(group)| > 0 then Live(group)[0] else Freshest(group)
  }

  predicate Ambiguous(stubs: seq<Stub>, name: string) {
    |Live(Group(stubs, name))| >= 2
  }

  function Bound(stubs: seq<Stub>): map<string, Stub> {
    map name | name in NamesOf(stubs) && !Ambiguous(stubs, name) && Group(stubs, name) != []
      :: Pick(Group(stubs, name))
  }

  function Dupes(stubs: seq<Stub>): set<string> {
    set name | name in NamesOf(stubs) && Ambiguous(stubs, name)
  }

  // Go's order on strings, which is the order of code points.
  predicate StringLess(a: string, b: string) {
    if a == "" then b != ""
    else if b == "" then false
    else a[0] < b[0] || (a[0] == b[0] && StringLess(a[1..], b[1..]))
  }

  predicate Before(a: Stub, b: Stub) {
    a.createIndex < b.createIndex || (a.createIndex == b.createIndex && StringLess(a.name, b.name))
  }

  predicate Keyed(bound: map<string, Stub>) {
    forall n :: n in bound ==> bound[n].name == n
  }

  // Every object name some bound node sanitizes to, with the least such node as its owner.
  ghost predicate IsOwners(bound: map<string, Stub>, owners: map<string, string>) {
    && owners.Keys == (set n | n in bound :: ObjectName(n))
    && forall obj :: obj in owners ==>
         && owners[obj] in bound && ObjectName(owners[obj]) == obj
         && forall n :: n in bound && ObjectName(n) == obj && n != owners[obj]
              ==> Before(bound[owners[obj]], bound[n])
  }

  /* --------------------------------- The loops --------------------------------- */

  method BindNodes(stubs: seq<Stub>) returns (bound: map<string, Stub>, dupes: set<string>)
    ensures bound == Bound(stubs) && dupes == Dupes(stubs)
  {
    var byName := GroupByName(stubs);
    bound, dupes := map[], {};
    var pending := byName.Keys;
    while pending != {}
      invariant pending <= NamesOf(stubs)
      invariant forall n :: n in bound ==> n !in pending && n in Bound(stubs) && bound[n] == Bound(stubs)[n]
      invariant forall n :: n in Bound(stubs) ==> n in pending || n in bound
      invariant dupes == Dupes(stubs) - pending
      decreases pending
    {
      var name :| name in pending;
      GroupNonEmpty(stubs, name);
      var best := BindGroup(byName[name]);
      if best.Some? {
        bound := bound[name := best.value];
      } else {
        dupes := dupes + {name}; // more than one live node of the name
      }
      pending := pending - {name};
    }
  }

  method GroupByName(stubs: seq<Stub>) returns (byName: map<string, seq<Stub>>)
    ensures IsGrouping(stubs, byName)
  {
    byName := map[];
    for i := 0 to |stubs|
      invariant IsGrouping(stubs[..i], byName)
    {
      var s := stubs[i];
      GroupStep(stubs[..i], s, byName);
      assert stubs[..i + 1] == stubs[..i] + [s];
      byName := byName[s.name := (if s.name in byName then byName[s.name] else []) + [s]];
    }
    assert stubs[..|stubs|] == stubs;
  }

  ghost predicate IsGrouping(stubs: seq<Stub>, byName: map<string, seq<Stub>>) {
    byName.Keys == NamesOf(stubs) && forall n :: n in byName ==> byName[n] == Group(stubs, n)
  }

  lemma GroupStep(front: seq<Stub>, s: Stub, byName: map<string, seq<Stub>>)
    requires IsGrouping(front, byName)
    ensures IsGrouping(front + [s], byName[s.name := (if s.name in byName then byName[s.name] else []) + [s]])
  {
    var all := front + [s];
    assert all[..|all| - 1] == front;
    assert NamesOf(all) == NamesOf(front) + {s.name};
    if s.name !in byName { GroupEmpty(front, s.name); }
    forall n | n in byName && n != s.name ensures Group(all, n) == byName[n] {
      assert Group(front, n) + [] == Group(front, n);
    }
  }

  method BindGroup(group: seq<Stub>) returns (best: Option<Stub>)
    requires group != []
    ensures best == if |Live(group)| >= 2 then None else Some(Pick(group))
  {
    var live := CollectLive(group);
    if |live| == 0 {
      var freshest := PickFreshest(group);
      best := Some(freshest);
    } else if |live| == 1 {
      best := Some(live[0]);
    } else {
      best := None;
    }
  }

  method CollectLive(group: seq<Stub>) returns (live: seq<Stub>)
    ensures live == Live(group)
  {
    live := [];
    for i := 0 to |group|
      invariant live == Live(group[..i])
    {
      assert group[..i + 1][..i] == group[..i];
      if group[i].health != Down {
        live := live + [group[i]];
      }
    }
    assert group[..|group|] == group;
  }

  method PickFreshest(group: seq<Stub>) returns (best: Stub)
    requires group != []
    ensures best == Freshest(group)
  {
    best := group[0];
    for i := 0 to |group|
      invariant best == if i == 0 then group[0] else Freshest(group[..i])
    {
      assert group[..i + 1][..i] == group[..i];
      if group[i].createIndex > best.createIndex {
        best := group[i];
      }
    }
    assert group[..|group|] == group;
  }

  method ResolveCollisionOwners(bound: map<string, Stub>) returns (owners: map<string, string>)
    requires Keyed(bound)
    ensures IsOwners(bound, owners)
  {
    hide IsBest, IsOwners;
    var best: map<string, Stub> := map[];
    var pending := bound.Keys;
    ghost var seen: set<string> := {};
    BestOfNone(bound);
    while pending != {}
      invariant seen + pending == bound.Keys && seen !! pending
      invariant IsBest(bound, seen, best)
      decreases pending
    {
      var name :| name in pending;
      best := Challenge(bound, seen, best, name);
      pending, seen := pending - {name}, seen + {name};
    }
    assert seen == bound.Keys;
    BestAreOwners(bound, best);
    owners := map obj | obj in best :: best[obj].name;
  }

  lemma BestOfNone(bound: map<string, Stub>)
    requires Keyed(bound)
    ensures IsBest(bound, {}, map[])
  {
  }

  lemma BestAreOwners(bound: map<string, Stub>, best: map<string, Stub>)
    requires Keyed(bound) && IsBest(bound, bound.Keys, best)
    ensures IsOwners(bound, map obj | obj in best :: best[obj].name)
  {
  }

  method Challenge(bound: map<string, Stub>, ghost seen: set<string>, best: map<string, Stub>, name: string)
    returns (next: map<string, Stub>)
    requires Keyed(bound) && IsBest(bound, seen, best) && name in bound && name !in seen
    ensures IsBest(bound, seen + {name}, next)
  {
    var stub := bound[name];
    var obj := SanitizeNodeName(stub.name);
    BestStep(bound, seen, best, name);
    next := if obj !in best || Before(stub, best[obj]) then best[obj := stub] else best;
  }

  // The least stub of every object name among the names looked at so far.
  ghost predicate IsBest(bound: map<string, Stub>, seen: set<string>, best: map<string, Stub>)
    requires Keyed(bound)
  {
    && seen <= bound.Keys
    && (forall n :: n in seen ==> ObjectName(n) in best)
    && forall obj :: obj in best ==>
         && best[obj].name in seen && bound[best[obj].name] == best[obj]
         && ObjectName(best[obj].name) == obj
         && forall n :: n in seen && ObjectName(n) == obj && n != best[obj].name
              ==> Before(best[obj], bound[n])
  }

  lemma BestStep(bound: map<string, Stub>, seen: set<string>, best: map<string, Stub>, name: string)
    requires Keyed(bound) && IsBest(bound, seen, best) && name in bound && name !in seen
    ensures var obj := ObjectName(name);
            IsBest(bound, seen + {name},
                   if obj !in best || Before(bound[name], best[obj]) then best[obj := bound[name]] else best)
  {
    hide ObjectName;
    var obj := ObjectName(name);
    if obj in best {
      var cur := best[obj];
      BeforeTotal(bound[name], cur);
      forall n | n in seen && ObjectName(n) == obj && Before(bound[name], cur)
        ensures Before(bound[name], bound[n])
      {
        if n != cur.name { BeforeTransitive(bound[name], cur, bound[n]); }
      }
    }
  }

  /* ------------------------------- Orders and groups ------------------------------- */

  lemma StringLessTotal(a: string, b: string)
    ensures a == b || StringLess(a, b) || StringLess(b, a)
    ensures !(StringLess(a, b) && StringLess(b, a)) && !StringLess(a, a)
  {
    if a != "" && b != "" {
      StringLessTotal(a[1..], b[1..]);
      StringLessTotal(a[1..], a[1..]);
      assert a == [a[0]] + a[1..] && b == [b[0]] + b[1..];
    } else if a != "" {
      StringLessTotal(a[1..], a[1..]);
    }
  }

  lemma StringLessTransitive(a: string, b: string, c: string)
    requires StringLess(a, b) && StringLess(b, c)
    ensures StringLess(a, c)
  {
    if a != "" && a[0] == b[0] && b[0] == c[0] {
      StringLessTransitive(a[1..], b[1..], c[1..]);
    }
  }

  lemma BeforeTotal(a: Stub, b: Stub)
    ensures a.name != b.name ==> Before(a, b) || Before(b, a)
    ensures !(Before(a, b) && Before(b, a))
  {
    StringLessTotal(a.name, b.name);
  }

  lemma BeforeTransitive(a: Stub, b: Stub, c: Stub)
    requires Before(a, b) && Before(b, c)
    ensures Before(a, c)
  {
    if a.createIndex == b.createIndex == c.createIndex {
      StringLessTransitive(a.name, b.name, c.name);
    }
  }

  lemma GroupMembers(stubs: seq<Stub>, name: string)
    ensures forall s :: s in Group(stubs, name) <==> s in stubs && s.name == name
  {
    if stubs != [] {
      GroupMembers(stubs[..|stubs| - 1], name);
      assert stubs == stubs[..|stubs| - 1] + [stubs[|stubs| - 1]];
    }
  }

  lemma GroupEmpty(stubs: seq<Stub>, name: string)
    requires name !in NamesOf(stubs)
    ensures Group(stubs, name) == []
  {
    GroupMembers(stubs, name);
    assert forall s :: s !in Group(stubs, name);
  }

  lemma GroupNonEmpty(stubs: seq<Stub>, name: string)
    requires name in NamesOf(stubs)
    ensures Group(stubs, name) != []
  {
    GroupMembers(stubs, name);
    var s :| s in stubs && s.name == name;
    assert s in Group(stubs, name);
  }

  lemma LiveMembers(group: seq<Stub>)
    ensures forall s :: s in Live(group) <==> s in group && s.health != Down
  {
    if group != [] {
      LiveMembers(group[..|group| - 1]);
      assert group == group[..|group| - 1] + [group[|group| - 1]];
    }
  }

  lemma {:induction false} FreshestIsMaximal(group: seq<Stub>)
    requires group != []
    ensures exists i :: 0 <= i < |group| && group[i] == Freshest(group)
    ensures forall i :: 0 <= i < |group| ==> group[i].createIndex <= Freshest(group).createIndex
  {
    var front, last := group[..|group| - 1], group[|group| - 1];
    if |group| > 1 {
      FreshestIsMaximal(front);
      var i :| 0 <= i < |front| && front[i] == Freshest(front);
      assert group[i] == Freshest(front);
    }
    assert group[|group| - 1] == last;
    forall i | 0 <= i < |group| ensures group[i].createIndex <= Freshest(group).createIndex {
      if i < |front| { assert group[i] == front[i]; }
    }
  }

  /* ---------------------------------- Theorems ---------------------------------- */

  /** Every listed name is bound or ambiguous, never both, and nothing else is either. */
  lemma BindPartitions(stubs: seq<Stub>)
    ensures Bound(stubs).Keys !! Dupes(stubs)
    ensures Bound(stubs).Keys + Dupes(stubs) == NamesOf(stubs)
    ensures Keyed(Bound(stubs))
  {
    forall name | name in NamesOf(stubs)
      ensures Group(stubs, name) != [] && (!Ambiguous(stubs, name) ==> Pick(Group(stubs, name)).name == name)
    {
      GroupNonEmpty(stubs, name);
      PickMeaning(stubs, name);
    }
  }

  lemma PickMeaning(stubs: seq<Stub>, name: string)
    requires Group(stubs, name) != []
    ensures var p := Pick(Group(stubs, name));
            && p in stubs && p.name == name
            && (p.health == Down ==>
                  forall s :: s in stubs && s.name == name ==>
                    s.health == Down && s.createIndex <= p.createIndex)
  {
    var group := Group(stubs, name);
    GroupMembers(stubs, name);
    LiveMembers(group);
    FreshestIsMaximal(group);
    if |Live(group)| > 0 {
      assert Live(group)[0] in Live(group);
    } else {
      assert forall s :: s in group ==> s !in Live(group);
    }
  }

  /** A bound name stands for one of its listed stubs: its only live one, or, when all of them are
      down, one with the largest creation index. */
  lemma BoundMeaning(stubs: seq<Stub>, name: string)
    requires name in Bound(stubs)
    ensures var p := Bound(stubs)[name];
            && p in stubs && p.name == name
            && (p.health != Down ==> forall s :: s in stubs && s.name == name && s.health != Down ==> s == p)
            && (p.health == Down ==>
                  forall s :: s in stubs && s.name == name ==> s.health == Down && s.createIndex <= p.createIndex)
  {
    var group := Group(stubs, name);
    PickMeaning(stubs, name);
    GroupMembers(stubs, name);
    LiveMembers(group);
    var p := Pick(group);
    if p.health != Down {
      assert p in group;
      assert p in Live(group);
      forall s | s in stubs && s.name == name && s.health != Down ensures s == p {
        assert s in group;
        assert s in Live(group);
      }
    }
  }

  /** A name is refused exactly when two of its list entries are not down. */
  lemma DupesMeaning(stubs: seq<Stub>, name: string)
    ensures name in Dupes(stubs) <==> TwoLive(stubs, name)
  {
    LiveCount(stubs, name);
    if Ambiguous(stubs, name) {
      var i, j :| 0 <= i < j < |stubs| && LiveEntry(stubs[i], name) && LiveEntry(stubs[j], name);
      assert stubs[i] in stubs;
    }
  }

  predicate LiveEntry(s: Stub, name: string) {
    s.name == name && s.health != Down
  }

  ghost predicate OneLive(stubs: seq<Stub>, name: string) {
    exists i :: 0 <= i < |stubs| && LiveEntry(stubs[i], name)
  }

  ghost predicate TwoLive(stubs: seq<Stub>, name: string) {
    exists i, j :: 0 <= i < j < |stubs| && LiveEntry(stubs[i], name) && LiveEntry(stubs[j], name)
  }

  lemma {:induction false} LiveCount(stubs: seq<Stub>, name: string)
    ensures |LiveOf(stubs, name)| >= 1 <==> OneLive(stubs, name)
    ensures |LiveOf(stubs, name)| >= 2 <==> TwoLive(stubs, name)
  {
    if stubs != [] {
      var front, last := stubs[..|stubs| - 1], stubs[|stubs| - 1];
      LiveCount(front, name);
      LiveGroupSnoc(front, last, name);
      LiveSnoc(front, last, name);
      assert stubs == front + [last];
    }
  }

  lemma LiveSnoc(front: seq<Stub>, last: Stub, name: string)
    ensures OneLive(front + [last], name) <==> OneLive(front, name) || LiveEntry(last, name)
    ensures TwoLive(front + [last], name) <==> TwoLive(front, name) || (OneLive(front, name) && LiveEntry(last, name))
  {
    var all := front + [last];
    assert forall i :: 0 <= i < |front| ==> all[i] == front[i];
    assert all[|front|] == last;
  }

  function LiveOf(stubs: seq<Stub>, name: string): seq<Stub> {
    Live(Group(stubs, name))
  }

  lemma LiveGroupSnoc(front: seq<Stub>, last: Stub, name: string)
    ensures Live(Group(front + [last], name))
         == Live(Group(front, name)) + if LiveEntry(last, name) then [last] else []
  {
    var all := front + [last];
    assert all[..|all| - 1] == front;
    if last.name == name {
      var g := Group(front, name) + [last];
      assert g[..|g| - 1] == Group(front, name);
    } else {
      assert Group(front, name) + [] == Group(front, name);
    }
  }

  /* --------------------------- Independence of list order --------------------------- */

  lemma {:induction false} LiveMultiplicity(stubs: seq<Stub>, name: string, s: Stub)
    ensures multiset(LiveOf(stubs, name))[s] == if LiveEntry(s, name) then multiset(stubs)[s] else 0
  {
    if stubs != [] {
      var front, last := stubs[..|stubs| - 1], stubs[|stubs| - 1];
      assert stubs == front + [last];
      LiveMultiplicity(front, name, s);
      LiveGroupSnoc(front, last, name);
    }
  }

  predicate SameRank(a: Stub, b: Stub) {
    a.name == b.name && a.health == Down && b.health == Down && a.createIndex == b.createIndex
  }

  // Down stubs of one name have different creation indexes.
  ghost predicate DownDistinct(stubs: seq<Stub>) {
    forall a, b :: a in stubs && b in stubs && SameRank(a, b) ==> a == b
  }

  /** Which stub a name is bound to, and which names are refused, does not depend on the order in
      which Nomad lists the nodes. */
  lemma BindIgnoresListOrder(stubs: seq<Stub>, permuted: seq<Stub>)
    requires multiset(stubs) == multiset(permuted) && DownDistinct(stubs)
    ensures Bound(stubs) == Bound(permuted) && Dupes(stubs) == Dupes(permuted)
  {
    SameMembers(stubs, permuted);
    forall name ensures name in Dupes(stubs) <==> name in Dupes(permuted) {
      SameLive(stubs, permuted, name);
    }
    BindPartitions(stubs);
    BindPartitions(permuted);
    assert Bound(stubs).Keys == Bound(permuted).Keys;
    forall name | name in Bound(stubs) ensures Bound(stubs)[name] == Bound(permuted)[name] {
      SameBinding(stubs, permuted, name);
    }
  }

  lemma SameMembers(stubs: seq<Stub>, permuted: seq<Stub>)
    requires multiset(stubs) == multiset(permuted)
    ensures forall s :: s in stubs <==> s in permuted
    ensures NamesOf(stubs) == NamesOf(permuted)
  {
    assert forall s :: s in stubs <==> s in multiset(stubs);
    assert forall s :: s in permuted <==> s in multiset(permuted);
  }

  lemma SameBinding(stubs: seq<Stub>, permuted: seq<Stub>, name: string)
    requires DownDistinct(stubs) && forall s :: s in stubs <==> s in permuted
    requires name in Bound(stubs) && name in Bound(permuted)
    ensures Bound(stubs)[name] == Bound(permuted)[name]
  {
    hide Bound;
    BoundMeaning(stubs, name);
    BoundMeaning(permuted, name);
  }

  lemma SameLive(stubs: seq<Stub>, permuted: seq<Stub>, name: string)
    requires multiset(stubs) == multiset(permuted)
    ensures |LiveOf(stubs, name)| == |LiveOf(permuted, name)|
  {
    forall s ensures multiset(LiveOf(stubs, name))[s] == multiset(LiveOf(permuted, name))[s] {
      LiveMultiplicity(stubs, name, s);
      LiveMultiplicity(permuted, name, s);
    }
    assert multiset(LiveOf(stubs, name)) == multiset(LiveOf(permuted, name));
  }

  /** There is only one choice of owners, so map order cannot change it. */
  lemma {:induction false} OwnersUnique(bound: map<string, Stub>, owners: map<string, string>, others: map<string, string>)
    requires IsOwners(bound, owners) && IsOwners(bound, others)
    ensures owners == others
  {
    forall obj | obj in owners ensures owners[obj] == others[obj] {
      assert obj in others;
      BeforeTotal(bound[owners[obj]], bound[others[obj]]);
    }
  }
}
