/** Validation of the event tree that accepted trace evidence carries. */
module EventTree {
  import opened Ordering

  datatype Event = Event(id: string, parent: Option<string>, start: int, end: Option<int>, keys: set<string>)

  datatype Problem =
    | DuplicateId(index: nat)
    | EndsBeforeStart(index: nat)
    | ForeignAttribute(index: nat)
    | UnknownParent(index: nat)
    | StartsBeforeParent(index: nat)
    | RootCount(roots: nat)

  /** An event with the given id at or before `i`; an event counts as its own predecessor here. */
  ghost predicate Seen(events: seq<Event>, i: nat, id: string)
    requires i <= |events|
  {
    exists j :: 0 <= j < i && events[j].id == id
  }

  /** What is wrong with event `i`, given the events before it. */
  ghost function ProblemAt(events: seq<Event>, allowlist: set<string>, i: nat): Option<Problem>
    requires i < |events|
  {
    var e := events[i];
    if Seen(events, i, e.id) then Some(DuplicateId(i))
    else if e.end.Some? && e.end.value < e.start then Some(EndsBeforeStart(i))
    else if !(e.keys <= allowlist) then Some(ForeignAttribute(i))
    else if e.parent.None? then None
    else if !Seen(events, i + 1, e.parent.value) then Some(UnknownParent(i))
    else if exists j :: 0 <= j <= i && events[j].id == e.parent.value && e.start < events[j].start
    then Some(StartsBeforeParent(i))
    else None
  }

  ghost function Roots(events: seq<Event>): nat {
    if events == [] then 0
    else Roots(events[..|events| - 1]) + (if events[|events| - 1].parent.None? then 1 else 0)
  }

  ghost function FirstProblem(events: seq<Event>, allowlist: set<string>, from: nat): Option<Problem>
    requires from <= |events|
    decreases |events| - from
  {
    if from == |events| then
      if Roots(events) == 1 then None else Some(RootCount(Roots(events)))
    else if ProblemAt(events, allowlist, from).Some? then ProblemAt(events, allowlist, from)
    else FirstProblem(events, allowlist, from + 1)
  }

  ghost predicate Accepted(events: seq<Event>, allowlist: set<string>) {
    FirstProblem(events, allowlist, 0).None?
  }

  /** The dictionary from event id to position, over the first `i` events. */
  ghost predicate SeenMap(events: seq<Event>, i: nat, seen: map<string, nat>)
    requires i <= |events|
  {
    && (forall j | 0 <= j < i :: events[j].id in seen && seen[events[j].id] == j)
    && (forall id | id in seen :: seen[id] < i && events[seen[id]].id == id)
  }

  lemma SeenByMap(events: seq<Event>, i: nat, seen: map<string, nat>, id: string)
    requires i <= |events| && SeenMap(events, i, seen)
    ensures Seen(events, i, id) <==> id in seen
  {
    if id in seen {
      assert events[seen[id]].id == id;
    }
  }

  /** The per-event checks, stated through the dictionary. */
  lemma ProblemByMap(events: seq<Event>, allowlist: set<string>, i: nat, seen: map<string, nat>)
    requires i < |events| && SeenMap(events, i, seen)
    ensures var e, seen' := events[i], seen[events[i].id := i];
            ProblemAt(events, allowlist, i)
            == if e.id in seen then Some(DuplicateId(i))
               else if e.end.Some? && e.end.value < e.start then Some(EndsBeforeStart(i))
               else if !(e.keys <= allowlist) then Some(ForeignAttribute(i))
               else if e.parent.None? then None
               else if e.parent.value !in seen' then Some(UnknownParent(i))
               else if e.start < events[seen'[e.parent.value]].start then Some(StartsBeforeParent(i))
               else None
    ensures events[i].id !in seen ==> SeenMap(events, i + 1, seen[events[i].id := i])
  {
    var e := events[i];
    SeenByMap(events, i, seen, e.id);
    if e.id !in seen {
      var seen' := seen[e.id := i];
      assert SeenMap(events, i + 1, seen');
      if e.parent.Some? {
        SeenByMap(events, i + 1, seen', e.parent.value);
        forall j | 0 <= j <= i && events[j].id == e.parent.value ensures j == seen'[e.parent.value] {
        }
      }
    }
  }

  /** Reports the first problem in event order, or a wrong number of roots. */
  method ValidateEventTree(events: seq<Event>, allowlist: set<string>) returns (problem: Option<Problem>)
    ensures problem == FirstProblem(events, allowlist, 0)
  {
    var seen: map<string, nat>, roots := map[], 0;
    for i := 0 to |events|
      invariant SeenMap(events, i, seen)
      invariant roots == Roots(events[..i])
      invariant FirstProblem(events, allowlist, 0) == FirstProblem(events, allowlist, i)
    {
      var e := events[i];
      ProblemByMap(events, allowlist, i, seen);
      assert events[..i + 1][..i] == events[..i];
      if e.id in seen {
        return Some(DuplicateId(i));
      }
      seen := seen[e.id := i];
      if e.end.Some? && e.end.value < e.start {
        return Some(EndsBeforeStart(i));
      }
      if !(e.keys <= allowlist) {
        return Some(ForeignAttribute(i));
      }
      if e.parent.None? {
        roots := roots + 1;
        continue;
      }
      if e.parent.value !in seen {
        return Some(UnknownParent(i));
      }
      var parent := events[seen[e.parent.value]];
      if e.start < parent.start {
        return Some(StartsBeforeParent(i));
      }
    }
    assert events[..|events|] == events;
    if roots != 1 {
      return Some(RootCount(roots));
    }
    return None;
  }

  // ----- what acceptance means -----

  lemma {:induction false} AcceptedFrom(events: seq<Event>, allowlist: set<string>, from: nat, i: nat)
    requires from <= i < |events| && FirstProblem(events, allowlist, from).None?
    ensures ProblemAt(events, allowlist, i).None? && Roots(events) == 1
    decreases |events| - from
  {
    if from < i {
      AcceptedFrom(events, allowlist, from + 1, i);
    } else if from + 1 < |events| {
      AcceptedFrom(events, allowlist, from + 1, from + 1);
    }
  }

  lemma {:induction false} NoProblemAccepted(events: seq<Event>, allowlist: set<string>, from: nat)
    requires from <= |events| && Roots(events) == 1
    requires forall i | 0 <= i < |events| :: ProblemAt(events, allowlist, i).None?
    ensures FirstProblem(events, allowlist, from).None?
    decreases |events| - from
  {
    if from < |events| {
      NoProblemAccepted(events, allowlist, from + 1);
    }
  }

  /** `n` parent steps lead from event `i` to a parentless event. */
  ghost predicate ReachesRoot(events: seq<Event>, i: nat, n: nat)
    requires i < |events|
    decreases n
  {
    if n == 0 then events[i].parent.None?
    else exists j: nat :: j < |events| && events[i].parent == Some(events[j].id) && ReachesRoot(events, j, n - 1)
  }

  ghost predicate HasChain(events: seq<Event>, i: nat)
    requires i < |events|
  {
    exists n: nat :: ReachesRoot(events, i, n)
  }

  ghost predicate SelfParented(events: seq<Event>, i: nat)
    requires i < |events|
  {
    events[i].parent == Some(events[i].id)
  }

  lemma ParentBefore(events: seq<Event>, allowlist: set<string>, i: nat) returns (j: nat)
    requires Accepted(events, allowlist) && i < |events|
    requires events[i].parent.Some? && !SelfParented(events, i)
    ensures j < i && events[i].parent == Some(events[j].id) && events[j].start <= events[i].start
  {
    AcceptedFrom(events, allowlist, 0, i);
    assert Seen(events, i + 1, events[i].parent.value);
    var k :| 0 <= k < i + 1 && events[k].id == events[i].parent.value;
    j := k;
  }

  lemma UniqueIds(events: seq<Event>, allowlist: set<string>, i: nat, j: nat)
    requires Accepted(events, allowlist) && i < |events| && j < |events| && events[i].id == events[j].id
    ensures i == j
  {
    AcceptedFrom(events, allowlist, 0, i);
    AcceptedFrom(events, allowlist, 0, j);
    if i < j {
      assert Seen(events, j, events[j].id);
    } else if j < i {
      assert Seen(events, i, events[i].id);
    }
  }

  lemma {:induction false} RootsCount(events: seq<Event>, i: nat, j: nat)
    requires i < j < |events| && events[i].parent.None? && events[j].parent.None?
    ensures Roots(events) >= 2
  {
    var front := events[..|events| - 1];
    if j == |events| - 1 {
      RootsPositive(front, i);
    } else {
      RootsCount(front, i, j);
    }
  }

  lemma {:induction false} RootsPositive(events: seq<Event>, i: nat)
    requires i < |events| && events[i].parent.None?
    ensures Roots(events) >= 1
  {
    if i < |events| - 1 {
      RootsPositive(events[..|events| - 1], i);
    }
  }

  lemma {:induction false} ChainExists(events: seq<Event>, allowlist: set<string>, i: nat)
    requires Accepted(events, allowlist) && i < |events|
    requires forall k | 0 <= k < |events| :: !SelfParented(events, k)
    ensures HasChain(events, i) && events[0].start <= events[i].start
    decreases i
  {
    if events[i].parent.None? {
      assert ReachesRoot(events, i, 0);
      if i > 0 {
        FirstIsRoot(events, allowlist);
        RootsCount(events, 0, i);
        AcceptedFrom(events, allowlist, 0, i);
      }
    } else {
      var j := ParentBefore(events, allowlist, i);
      ChainExists(events, allowlist, j);
      var n: nat :| ReachesRoot(events, j, n);
      assert ReachesRoot(events, i, n + 1);
    }
  }

  lemma FirstIsRoot(events: seq<Event>, allowlist: set<string>)
    requires Accepted(events, allowlist) && events != [] && !SelfParented(events, 0)
    ensures events[0].parent.None?
  {
    if events[0].parent.Some? {
      var j := ParentBefore(events, allowlist, 0);
    }
  }

  lemma {:induction false} SelfParentedNoChain(events: seq<Event>, allowlist: set<string>, i: nat, n: nat)
    requires Accepted(events, allowlist) && i < |events| && SelfParented(events, i)
    ensures !ReachesRoot(events, i, n)
  {
    if n > 0 && ReachesRoot(events, i, n) {
      var j: nat :| j < |events| && events[i].parent == Some(events[j].id) && ReachesRoot(events, j, n - 1);
      UniqueIds(events, allowlist, i, j);
      SelfParentedNoChain(events, allowlist, i, n - 1);
    }
  }

  /** In accepted evidence every ancestor chain ends at a root exactly when no event names itself
      as its parent: the validator records an event before it looks its parent up. */
  lemma ChainsReachRootIff(events: seq<Event>, allowlist: set<string>)
    requires Accepted(events, allowlist)
    ensures (forall i | 0 <= i < |events| :: HasChain(events, i))
            <==> (forall i | 0 <= i < |events| :: !SelfParented(events, i))
  {
    if forall i | 0 <= i < |events| :: !SelfParented(events, i) {
      forall i | 0 <= i < |events| ensures HasChain(events, i) {
        ChainExists(events, allowlist, i);
      }
    } else {
      var i :| 0 <= i < |events| && SelfParented(events, i);
      forall n: nat ensures !ReachesRoot(events, i, n) {
        SelfParentedNoChain(events, allowlist, i, n);
      }
      assert !HasChain(events, i);
    }
  }

  /** Without self-parented events the only root is first and nothing starts before it. */
  lemma RootFirstAndEarliest(events: seq<Event>, allowlist: set<string>, i: nat)
    requires Accepted(events, allowlist) && i < |events|
    requires forall k | 0 <= k < |events| :: !SelfParented(events, k)
    ensures events[i].parent.None? <==> i == 0
    ensures events[0].start <= events[i].start
  {
    FirstIsRoot(events, allowlist);
    ChainExists(events, allowlist, i);
    if i > 0 && events[i].parent.None? {
      RootsCount(events, 0, i);
      AcceptedFrom(events, allowlist, 0, i);
    }
  }

  /** A self-parented event is accepted, ahead of the root and of the root's start. */
  lemma SelfParentAccepted(allowlist: set<string>)
    ensures var events := [Event("a", Some("a"), 0, None, {}), Event("r", None, 5, None, {})];
            Accepted(events, allowlist) && SelfParented(events, 0)
  {
    var events := [Event("a", Some("a"), 0, None, {}), Event("r", None, 5, None, {})];
    var first := [events[0]];
    assert events[..1] == first && first[..0] == [];
    assert Roots(first) == 0;
    assert events[..|events| - 1] == first && Roots(events) == 1;
    assert Seen(events, 1, "a") by { assert events[0].id == "a"; }
    forall i | 0 <= i < |events| ensures ProblemAt(events, allowlist, i).None? {
    }
    NoProblemAccepted(events, allowlist, 0);
  }

  // ----- what the validator reports -----

  /** An earlier event has the same id. */
  ghost predicate Repeats(events: seq<Event>, i: nat)
    requires i < |events|
  {
    exists j :: 0 <= j < i && events[j].id == events[i].id
  }

  ghost predicate EndsEarly(e: Event) { exists end :: e.end == Some(end) && end < e.start }

  /** The event names a parent that is neither earlier nor the event itself. */
  ghost predicate Orphaned(events: seq<Event>, i: nat)
    requires i < |events|
  {
    events[i].parent != None && forall j | 0 <= j <= i :: events[i].parent != Some(events[j].id)
  }

  /** The event starts before an event that it names as its parent. */
  ghost predicate StartsEarly(events: seq<Event>, i: nat)
    requires i < |events|
  {
    exists j :: 0 <= j <= i && events[i].parent == Some(events[j].id) && events[i].start < events[j].start
  }

  ghost predicate WellPlaced(events: seq<Event>, allowlist: set<string>, i: nat)
    requires i < |events|
  {
    && !Repeats(events, i) && !EndsEarly(events[i]) && events[i].keys <= allowlist
    && !Orphaned(events, i) && !StartsEarly(events, i)
  }

  /** The events without a parent, by position. */
  ghost function RootSet(events: seq<Event>): set<nat> {
    set i: nat | i < |events| && events[i].parent == None
  }

  ghost predicate PlacedBefore(events: seq<Event>, allowlist: set<string>, n: nat)
    requires n <= |events|
  {
    forall i: nat | i < n :: WellPlaced(events, allowlist, i)
  }

  /** The report fits: the first event that is not well placed, for the first check that it fails, or else a number
      of roots other than one. */
  ghost predicate Fits(events: seq<Event>, allowlist: set<string>, problem: Problem) {
    match problem
    case DuplicateId(i) => i < |events| && PlacedBefore(events, allowlist, i) && Repeats(events, i)
    case EndsBeforeStart(i) =>
      i < |events| && PlacedBefore(events, allowlist, i) && !Repeats(events, i) && EndsEarly(events[i])
    case ForeignAttribute(i) =>
      && i < |events| && PlacedBefore(events, allowlist, i) && !Repeats(events, i) && !EndsEarly(events[i])
      && exists key :: key in events[i].keys && key !in allowlist
    case UnknownParent(i) =>
      && i < |events| && PlacedBefore(events, allowlist, i) && !Repeats(events, i) && !EndsEarly(events[i])
      && events[i].keys <= allowlist && Orphaned(events, i)
    case StartsBeforeParent(i) =>
      && i < |events| && PlacedBefore(events, allowlist, i) && !Repeats(events, i) && !EndsEarly(events[i])
      && events[i].keys <= allowlist && StartsEarly(events, i)
    case RootCount(n) => PlacedBefore(events, allowlist, |events|) && n == |RootSet(events)| != 1
  }

  lemma {:induction false} RootsAreCounted(events: seq<Event>)
    ensures Roots(events) == |RootSet(events)|
  {
    if events == [] {
      assert RootSet(events) == {};
    } else {
      var front, n := events[..|events| - 1], |events| - 1;
      RootsAreCounted(front);
      if events[n].parent == None {
        assert RootSet(events) == RootSet(front) + {n};
      } else {
        assert RootSet(events) == RootSet(front);
      }
    }
  }

  lemma ProblemFits(events: seq<Event>, allowlist: set<string>, i: nat)
    requires i < |events| && PlacedBefore(events, allowlist, i)
    ensures ProblemAt(events, allowlist, i).None? <==> WellPlaced(events, allowlist, i)
    ensures ProblemAt(events, allowlist, i).Some? ==> Fits(events, allowlist, ProblemAt(events, allowlist, i).value)
  {
    var e := events[i];
    assert EndsEarly(e) <==> e.end.Some? && e.end.value < e.start by {
      if e.end.Some? && e.end.value < e.start { assert e.end == Some(e.end.value); }
    }
    assert Seen(events, i, e.id) <==> Repeats(events, i);
    if e.parent.Some? {
      assert Seen(events, i + 1, e.parent.value) <==> !Orphaned(events, i);
    }
  }

  lemma {:induction false} ReportFrom(events: seq<Event>, allowlist: set<string>, from: nat)
    requires from <= |events| && PlacedBefore(events, allowlist, from)
    ensures FirstProblem(events, allowlist, from).None?
            <==> PlacedBefore(events, allowlist, |events|) && |RootSet(events)| == 1
    ensures FirstProblem(events, allowlist, from).Some? ==>
              Fits(events, allowlist, FirstProblem(events, allowlist, from).value)
    decreases |events| - from
  {
    if from == |events| {
      RootsAreCounted(events);
    } else {
      ProblemFits(events, allowlist, from);
      if WellPlaced(events, allowlist, from) {
        ReportFrom(events, allowlist, from + 1);
      }
    }
  }

  /** A list is accepted exactly when every event is well placed and one has no parent; otherwise the report fits. */
  lemma AcceptedIff(events: seq<Event>, allowlist: set<string>)
    ensures Accepted(events, allowlist) <==> PlacedBefore(events, allowlist, |events|) && |RootSet(events)| == 1
    ensures !Accepted(events, allowlist) ==> Fits(events, allowlist, FirstProblem(events, allowlist, 0).value)
  {
    ReportFrom(events, allowlist, 0);
  }
}
