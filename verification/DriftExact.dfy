/** When the drift events of a replicated cluster are exactly the changes of its address, whatever
    becomes of the writes that persist the address. */
module DriftExact {
  import opened Api
  import opened ClusterPhase

  // An address a pass resolved, and whether the write persisting it landed.
  datatype Seen = Seen(address: string, landed: bool)

  function Observed(steps: seq<Step>): seq<Seen> {
    if steps == [] then []
    else
      var last := steps[|steps| - 1].a;
      Observed(steps[..|steps| - 1])
      + if Resolves(last) then [Seen(last.access.address, last.midWrite.Applied())] else []
  }

  // The address persisted last, and the address resolved last.
  function Persisted(first: string, seen: seq<Seen>): string {
    if seen == [] then first
    else if seen[|seen| - 1].landed then seen[|seen| - 1].address
    else Persisted(first, seen[..|seen| - 1])
  }

  function Current(first: string, seen: seq<Seen>): string {
    if seen == [] then first else seen[|seen| - 1].address
  }

  function Change(from: string, to: string): seq<DriftEvent> {
    if Drifts(from, to) then [DriftEvent(from, to, false)] else []
  }

  // What is reported, and what changed.
  function Reported(first: string, seen: seq<Seen>): seq<DriftEvent> {
    if seen == [] then []
    else
      var front := seen[..|seen| - 1];
      Reported(first, front) + Change(Persisted(first, front), seen[|seen| - 1].address)
  }

  function Changed(first: string, seen: seq<Seen>): seq<DriftEvent> {
    if seen == [] then []
    else
      var front := seen[..|seen| - 1];
      Changed(first, front) + Change(Current(first, front), seen[|seen| - 1].address)
  }

  // An address resolved while the one resolved before it is not persisted. It does no harm only when
  // no address has been persisted yet and the address is the same.
  predicate Spoils(first: string, seen: seq<Seen>, k: nat)
    requires k < |seen|
  {
    var persisted, current := Persisted(first, seen[..k]), Current(first, seen[..k]);
    persisted != current && (persisted != "" || seen[k].address != current)
  }

  /* --------------------------------- Paths --------------------------------- */

  predicate Linked(events: seq<DriftEvent>) {
    forall k :: 0 <= k < |events| - 1 ==> events[k].to == events[k + 1].from
  }

  ghost predicate NonEmpty(seen: seq<Seen>) {
    forall k :: 0 <= k < |seen| ==> seen[k].address != ""
  }

  // Changes form a path that leads to the current address.
  lemma {:induction false} ChangedLinked(first: string, seen: seq<Seen>)
    requires NonEmpty(seen)
    ensures var events := Changed(first, seen);
            Linked(events) && (events != [] ==> events[|events| - 1].to == Current(first, seen))
  {
    if seen != [] {
      ChangedLinked(first, seen[..|seen| - 1]);
    }
  }

  // While an address is persisted that is not the current one, the change to the current one was
  // the last to be reported; while none is, nothing was.
  lemma {:induction false} ReportedLast(first: string, seen: seq<Seen>)
    requires NonEmpty(seen)
    ensures var events, p := Reported(first, seen), Persisted(first, seen);
            && (p == "" ==> events == [])
            && (p != "" && p != Current(first, seen) ==>
                  events != [] && events[|events| - 1].to == Current(first, seen))
  {
    if seen != [] {
      ReportedLast(first, seen[..|seen| - 1]);
    }
  }

  lemma ResolvedCurrent(first: string, seen: seq<Seen>)
    requires NonEmpty(seen)
    ensures Persisted(first, seen) != Current(first, seen) ==> Current(first, seen) != ""
  {
  }

  // Too few changes are reported, or they do not form a path.
  predicate Off(e: seq<DriftEvent>, c: seq<DriftEvent>) {
    !Linked(e) || |e| < |c|
  }

  // One more resolution, of address x, after p was persisted and q resolved.
  lemma StepAgainst(e: seq<DriftEvent>, c: seq<DriftEvent>, p: string, q: string, x: string)
    requires x != "" && (p != q ==> q != "") && (p == "" ==> e == [])
    requires p != "" && p != q ==> e != [] && e[|e| - 1].to == q
    ensures e == c && !(p != q && (p != "" || x != q)) ==> e + Change(p, x) == c + Change(q, x)
    ensures e == c && p != q && (p != "" || x != q) ==> Off(e + Change(p, x), c + Change(q, x))
    ensures Off(e, c) ==> Off(e + Change(p, x), c + Change(q, x))
  {
    var e', c' := e + Change(p, x), c + Change(q, x);
    if Linked(e') {
      LinkedPrefix(e, e');
      if e != [] && e' != e {
        assert e'[|e| - 1].to == e'[|e| - 1 + 1].from;
      }
    }
  }

  predicate Unspoilt(first: string, seen: seq<Seen>) {
    seen == [] || (Unspoilt(first, seen[..|seen| - 1]) && !Spoils(first, seen, |seen| - 1))
  }

  lemma {:induction false} UnspoiltMeaning(first: string, seen: seq<Seen>)
    ensures Unspoilt(first, seen) <==> forall k :: 0 <= k < |seen| ==> !Spoils(first, seen, k)
  {
    if seen != [] {
      var front := seen[..|seen| - 1];
      UnspoiltMeaning(first, front);
      forall k | 0 <= k < |front|
        ensures Spoils(first, seen, k) <==> Spoils(first, front, k)
      {
        assert front[..k] == seen[..k];
      }
    }
  }

  // What is reported is what changed exactly as long as no resolution spoils it.
  lemma {:induction false} ReportedAgainst(first: string, seen: seq<Seen>)
    requires NonEmpty(seen)
    ensures var e, c := Reported(first, seen), Changed(first, seen);
            if Unspoilt(first, seen) then e == c else Off(e, c)
  {
    if seen != [] {
      hide Off, Change, Persisted, Current;
      var front := seen[..|seen| - 1];
      ReportedAgainst(first, front);
      ReportedLast(first, front);
      ResolvedCurrent(first, front);
      StepAgainst(Reported(first, front), Changed(first, front), Persisted(first, front), Current(first, front),
                  seen[|seen| - 1].address);
    }
  }

  lemma LinkedPrefix(a: seq<DriftEvent>, b: seq<DriftEvent>)
    requires Linked(b) && |a| <= |b| && b[..|a|] == a
    ensures Linked(a)
  {
    assert forall k | 0 <= k < |a| :: a[k] == b[k];
  }

  /* --------------------------------- Runs --------------------------------- */

  lemma PassReports(spec: Spec, st: Status, a: Answers)
    ensures var r := Pass(spec, st, a);
            && r.persisted.externalAddress
               == (if Resolves(a) && a.midWrite.Applied() then a.access.address else st.externalAddress)
            && r.events == if Resolves(a) then DriftEvents(spec, st.phase, st.externalAddress, a.access.address) else []
  {
  }

  lemma {:induction false} RunReports(servers: nat, st: Status, steps: seq<Step>)
    requires servers != 1 && SameServers(steps, servers)
    ensures Run(st, steps).events == Reported(st.externalAddress, Observed(steps))
    ensures Run(st, steps).persisted.externalAddress == Persisted(st.externalAddress, Observed(steps))
    ensures AdjacentChanges(servers, st.externalAddress, Resolutions(st, steps))
            == Changed(st.externalAddress, Observed(steps))
    ensures LastAddress(st.externalAddress, Resolutions(st, steps)) == Current(st.externalAddress, Observed(steps))
  {
    if steps != [] {
      hide Pass;
      var front, last := steps[..|steps| - 1], steps[|steps| - 1];
      RunReports(servers, st, front);
      PassReports(last.spec, Run(st, front).persisted, last.a);
      var seen := Observed(front);
      if Resolves(last.a) {
        var s := Seen(last.a.access.address, last.a.midWrite.Applied());
        assert (seen + [s])[..|seen|] == seen;
        ChangesSnoc(servers, st.externalAddress, Resolutions(st, front),
                    Resolution(last.a.access.address, Run(st, front).persisted.phase == Ready));
      } else {
        assert seen + [] == seen && Resolutions(st, front) + [] == Resolutions(st, front);
      }
    }
  }

  lemma {:induction false} ObservedNonEmpty(steps: seq<Step>)
    requires SoundRun(steps)
    ensures NonEmpty(Observed(steps))
  {
    if steps != [] {
      ObservedNonEmpty(steps[..|steps| - 1]);
      assert Sound(steps[|steps| - 1].a);
    }
  }

  /** Whatever writes fail, the events of a replicated cluster are exactly the adjacent changes of its
      resolved addresses if and only if no address is resolved while the one before it is not the
      persisted one, except for an address resolved again before any was persisted. */
  lemma {:induction false} DriftEventsExactIff(servers: nat, st: Status, steps: seq<Step>)
    requires servers != 1 && SameServers(steps, servers) && SoundRun(steps)
    ensures var seen := Observed(steps);
            Run(st, steps).events == AdjacentChanges(servers, st.externalAddress, Resolutions(st, steps))
            <==> forall k :: 0 <= k < |seen| ==> !Spoils(st.externalAddress, seen, k)
  {
    hide Run, Reported, Changed, Spoils, AdjacentChanges, Unspoilt;
    var seen := Observed(steps);
    RunReports(servers, st, steps);
    ObservedNonEmpty(steps);
    ReportedAgainst(st.externalAddress, seen);
    ChangedLinked(st.externalAddress, seen);
    UnspoiltMeaning(st.externalAddress, seen);
  }
}
