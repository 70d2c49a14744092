/** The main results about grouping, stated about the value that is returned. */
module GroupingResults {
  import opened Ordering
  import opened FeatureDistance
  import opened Grouping
  import opened GroupingTheorems

  // ----- sorting the candidates by id -----

  lemma SameMembersOrdered(cs: seq<Candidate>)
    ensures forall c :: c in StableSort(IdOf, cs) <==> c in cs
    ensures |StableSort(IdOf, cs)| == |cs|
  {
    var ordered := StableSort(IdOf, cs);
    StableSortSorts(IdOf, cs);
    assert |multiset(ordered)| == |multiset(cs)|;
    forall c ensures c in ordered <==> c in cs {
      assert c in multiset(ordered) <==> c in multiset(cs);
    }
  }

  lemma OrderedAgree(p: seq<Candidate>, q: seq<Candidate>)
    requires SameIdSame(p) && multiset(p) == multiset(q)
    ensures StableSort(IdOf, p) == StableSort(IdOf, q)
  {
    StableSortSorts(IdOf, p);
    StableSortSorts(IdOf, q);
    SameMembersOrdered(p);
    SortedUnique(IdOf, StableSort(IdOf, p), StableSort(IdOf, q));
  }

  lemma {:induction false} OfKeySnoc(k: nat, s: seq<Candidate>, c: Candidate)
    ensures OfKey(IdOf, k, s + [c]) == OfKey(IdOf, k, s) + (if c.id == k then [c] else [])
  {
    if s == [] {
    } else {
      OfKeySnoc(k, s[1..], c);
      assert (s + [c])[1..] == s[1..] + [c];
    }
  }

  /** The dictionary holds the last candidate with the id. */
  lemma {:induction false} ByIdIsLast(cs: seq<Candidate>, k: nat)
    ensures k in ById(cs) <==> OfKey(IdOf, k, cs) != []
    ensures k in ById(cs) ==> var same := OfKey(IdOf, k, cs); ById(cs)[k] == same[|same| - 1]
  {
    if cs == [] {
    } else {
      var front, last := cs[..|cs| - 1], cs[|cs| - 1];
      ByIdIsLast(front, k);
      OfKeySnoc(k, front, last);
      assert cs == front + [last];
    }
  }

  lemma {:induction false} OfKeyUnassigned(k: nat, cs: seq<Candidate>, taken: set<Uuid>)
    ensures OfKey(IdOf, k, Unassigned(cs, taken)) == if k in taken then [] else OfKey(IdOf, k, cs)
  {
    if cs == [] {
    } else {
      OfKeyUnassigned(k, cs[1..], taken);
      var rest := Unassigned(cs[1..], taken);
      if cs[0].id !in taken {
        assert ([cs[0]] + rest)[1..] == rest;
      } else {
        assert Unassigned(cs, taken) == rest;
      }
    }
  }

  ghost predicate InGroups(groups: seq<seq<Candidate>>, k: nat) {
    exists group :: group in groups && k in IdsOf(group)
  }

  lemma InGroupsIff(ordered: seq<Candidate>, near: Nearness, minSamples: int, k: nat)
    ensures InGroups(Split(ordered, near, minSamples).0, k)
            <==> k in UnionOf(Clusters(GraphOf(ordered, near, minSamples)))
  {
    var g, groups := GraphOf(ordered, near, minSamples), Split(ordered, near, minSamples).0;
    SplitFacts(ordered, near, minSamples);
    UnionMember(Clusters(g), k);
    if k in UnionOf(Clusters(g)) {
      var s :| s in Clusters(g) && k in s;
      ByIdKeyed(ordered);
      PickSortedFacts(ById(ordered), s);
      assert PickSorted(ById(ordered), s) in groups;
    }
  }

  lemma SameEntry(cs: seq<Candidate>, k: nat)
    ensures k in ById(cs) <==> k in ById(StableSort(IdOf, cs))
    ensures k in ById(cs) ==> ById(cs)[k] == ById(StableSort(IdOf, cs))[k]
  {
    StableSortStable(IdOf, k, cs);
    ByIdIsLast(cs, k);
    ByIdIsLast(StableSort(IdOf, cs), k);
  }

  /** A grouped id shows only its dictionary entry. */
  lemma ObserveGrouped(cs: seq<Candidate>, near: Nearness, minSamples: int, k: nat)
    requires k in ById(cs)
    ensures forall group, c | group in Split(StableSort(IdOf, cs), near, minSamples).0 && c in group && c.id == k ::
              c == ById(cs)[k]
  {
    SameEntry(cs, k);
    SplitFacts(StableSort(IdOf, cs), near, minSamples);
  }

  /** An ungrouped id shows its candidates among the outliers, in input order. */
  lemma ObserveOutlier(cs: seq<Candidate>, near: Nearness, minSamples: int, k: nat)
    requires !InGroups(Split(StableSort(IdOf, cs), near, minSamples).0, k)
    ensures OfKey(IdOf, k, Split(StableSort(IdOf, cs), near, minSamples).1) == OfKey(IdOf, k, cs)
  {
    var ordered := StableSort(IdOf, cs);
    InGroupsIff(ordered, near, minSamples, k);
    StableSortStable(IdOf, k, cs);
    OfKeyUnassigned(k, ordered, UnionOf(Clusters(GraphOf(ordered, near, minSamples))));
  }

  /** The result of every permutation of the input is the same, groups, outliers and their order
      included, exactly when candidates that share an id are the same candidate. */
  lemma OrderIndependentIff(cs: seq<Candidate>, near: Nearness, minSamples: int)
    ensures (forall q | multiset(q) == multiset(cs) ::
               Split(StableSort(IdOf, q), near, minSamples) == Split(StableSort(IdOf, cs), near, minSamples))
            <==> SameIdSame(cs)
  {
    if SameIdSame(cs) {
      forall q | multiset(q) == multiset(cs)
        ensures Split(StableSort(IdOf, q), near, minSamples) == Split(StableSort(IdOf, cs), near, minSamples)
      {
        OrderedAgree(cs, q);
      }
    } else {
      var q := DistinguishingOrder(cs, near, minSamples);
    }
  }

  /** Moves the candidate at `i` to the end. */
  function MoveLast(cs: seq<Candidate>, i: nat): seq<Candidate>
    requires i < |cs|
  {
    cs[..i] + cs[i + 1..] + [cs[i]]
  }

  lemma MoveLastFacts(cs: seq<Candidate>, i: nat)
    requires i < |cs|
    ensures multiset(MoveLast(cs, i)) == multiset(cs)
    ensures cs[i].id in ById(MoveLast(cs, i)) && ById(MoveLast(cs, i))[cs[i].id] == cs[i]
  {
    var q := MoveLast(cs, i);
    assert cs == cs[..i] + [cs[i]] + cs[i + 1..];
    assert q[|q| - 1] == cs[i];
  }

  /** Moving another candidate with the id of a repeated one to the end shows in the result. */
  lemma DistinguishingOrder(cs: seq<Candidate>, near: Nearness, minSamples: int) returns (q: seq<Candidate>)
    requires !SameIdSame(cs)
    ensures multiset(q) == multiset(cs)
    ensures Split(StableSort(IdOf, q), near, minSamples) != Split(StableSort(IdOf, cs), near, minSamples)
  {
    var c, d :| c in cs && d in cs && c.id == d.id && c != d;
    var k := c.id;
    ByIdFacts(cs, k);
    var x := if c != ById(cs)[k] then c else d;
    var i :| 0 <= i < |cs| && cs[i] == x;
    q := MoveLast(cs, i);
    MoveLastFacts(cs, i);
    DifferentEntryDifferentSplit(cs, q, near, minSamples, k);
  }

  lemma DifferentEntryDifferentSplit(p: seq<Candidate>, q: seq<Candidate>, near: Nearness, minSamples: int, k: nat)
    requires k in ById(p) && k in ById(q) && ById(p)[k] != ById(q)[k]
    ensures Split(StableSort(IdOf, p), near, minSamples) != Split(StableSort(IdOf, q), near, minSamples)
  {
    var groups := Split(StableSort(IdOf, p), near, minSamples).0;
    if Split(StableSort(IdOf, p), near, minSamples) != Split(StableSort(IdOf, q), near, minSamples) {
    } else if InGroups(groups, k) {
      var group :| group in groups && k in IdsOf(group);
      var c :| c in group && c.id == k;
      ObserveGrouped(p, near, minSamples, k);
      ObserveGrouped(q, near, minSamples, k);
    } else {
      ObserveOutlier(p, near, minSamples, k);
      ObserveOutlier(q, near, minSamples, k);
      ByIdIsLast(p, k);
      ByIdIsLast(q, k);
    }
  }

  /** The call itself does not depend on the input order when ids identify candidates. */
  lemma GroupsOrderIndependent(p: seq<Candidate>, q: seq<Candidate>, eps: real, minSamples: int)
    requires SameIdSame(p) && multiset(p) == multiset(q)
    ensures GroupsOf(p, eps, minSamples) == GroupsOf(q, eps, minSamples)
  {
    OrderedAgree(p, q);
  }

  /** Whatever the order of the input, the call is rejected. */
  ghost predicate AlwaysRejected(cs: seq<Candidate>, eps: real, minSamples: int) {
    forall q | multiset(q) == multiset(cs) :: GroupsOf(q, eps, minSamples).Rejected?
  }

  lemma RejectedAlike(p: seq<Candidate>, q: seq<Candidate>, eps: real, minSamples: int)
    requires GroupsOf(p, eps, minSamples).Rejected? && GroupsOf(q, eps, minSamples).Rejected?
    ensures GroupsOf(p, eps, minSamples) == GroupsOf(q, eps, minSamples)
  {
  }

  lemma GroupedAlike(p: seq<Candidate>, q: seq<Candidate>, eps: real, minSamples: int)
    requires GroupsOf(p, eps, minSamples).Grouped? && GroupsOf(p, eps, minSamples) == GroupsOf(q, eps, minSamples)
    ensures Split(StableSort(IdOf, p), Within(eps), minSamples) == Split(StableSort(IdOf, q), Within(eps), minSamples)
  {
  }

  /** The outcome of the call is the same for every permutation of the input exactly when candidates that share an
      id are the same candidate, or no permutation succeeds. */
  lemma CallOrderIndependentIff(cs: seq<Candidate>, eps: real, minSamples: int)
    ensures (forall q | multiset(q) == multiset(cs) :: GroupsOf(q, eps, minSamples) == GroupsOf(cs, eps, minSamples))
            <==> SameIdSame(cs) || AlwaysRejected(cs, eps, minSamples)
  {
    if SameIdSame(cs) {
      forall q | multiset(q) == multiset(cs) ensures GroupsOf(q, eps, minSamples) == GroupsOf(cs, eps, minSamples) {
        GroupsOrderIndependent(cs, q, eps, minSamples);
      }
    } else if AlwaysRejected(cs, eps, minSamples) {
      forall q | multiset(q) == multiset(cs) ensures GroupsOf(q, eps, minSamples) == GroupsOf(cs, eps, minSamples) {
        RejectedAlike(q, cs, eps, minSamples);
      }
    } else {
      var q := DistinguishingOrder(cs, Within(eps), minSamples);
      if GroupsOf(cs, eps, minSamples).Grouped? && GroupsOf(cs, eps, minSamples) == GroupsOf(q, eps, minSamples) {
        GroupedAlike(cs, q, eps, minSamples);
        assert false;
      }
    }
  }

  // ----- disjoint groups and the coverage bound -----

  ghost predicate PairwiseDisjoint(groups: seq<seq<Candidate>>) {
    groups == []
    || ((forall h | h in groups[1..] :: IdsOf(groups[0]) !! IdsOf(h)) && PairwiseDisjoint(groups[1..]))
  }

  lemma {:induction false} PickDisjoint(byId: map<Uuid, Candidate>, sets: seq<set<Uuid>>)
    requires KeyedById(byId) && forall s | s in sets :: s <= byId.Keys
    requires forall i, j, x | 0 <= i < j < |sets| && x in sets[i] :: x !in sets[j]
    ensures PairwiseDisjoint(PickGroups(byId, sets))
  {
    if sets == [] {
    } else {
      var groups := PickGroups(byId, sets);
      forall i, j, x | 0 <= i < j < |sets[1..]| && x in sets[1..][i] ensures x !in sets[1..][j] {
        assert sets[1..][i] == sets[i + 1] && sets[1..][j] == sets[j + 1];
      }
      PickDisjoint(byId, sets[1..]);
      assert groups[1..] == PickGroups(byId, sets[1..]);
      PickSortedFacts(byId, sets[0]);
      forall h | h in groups[1..] ensures IdsOf(groups[0]) !! IdsOf(h) {
        PickGroupsMember(byId, sets[1..], h);
        var s :| s in sets[1..] && h == PickSorted(byId, s);
        PickSortedFacts(byId, s);
        var j :| 0 <= j < |sets[1..]| && sets[1..][j] == s;
        assert sets[j + 1] == s;
      }
    }
  }

  lemma {:induction false} InsertDisjoint(group: seq<Candidate>, groups: seq<seq<Candidate>>)
    requires PairwiseDisjoint(groups) && forall h | h in groups :: IdsOf(group) !! IdsOf(h)
    ensures PairwiseDisjoint(Insert(FirstId, group, groups))
  {
    if groups == [] || FirstId(group) <= FirstId(groups[0]) {
      assert ([group] + groups)[1..] == groups;
    } else {
      InsertDisjoint(group, groups[1..]);
      var rest := Insert(FirstId, group, groups[1..]);
      assert ([groups[0]] + rest)[1..] == rest;
      forall h | h in rest ensures IdsOf(groups[0]) !! IdsOf(h) {
        InsertMembers(FirstId, group, groups[1..], h);
      }
    }
  }

  lemma {:induction false} SortDisjoint(groups: seq<seq<Candidate>>)
    requires PairwiseDisjoint(groups)
    ensures PairwiseDisjoint(StableSort(FirstId, groups))
  {
    if groups == [] {
    } else {
      SortDisjoint(groups[1..]);
      var rest := StableSort(FirstId, groups[1..]);
      StableSortSorts(FirstId, groups[1..]);
      forall h | h in rest ensures IdsOf(groups[0]) !! IdsOf(h) {
        assert h in multiset(rest);
        assert h in multiset(groups[1..]);
      }
      InsertDisjoint(groups[0], rest);
    }
  }

  lemma {:induction false} DisjointTotal(groups: seq<seq<Candidate>>, all: set<Uuid>)
    requires PairwiseDisjoint(groups)
    requires forall group | group in groups :: IdsOf(group) <= all && |group| == |IdsOf(group)|
    ensures TotalSize(groups) <= |all|
  {
    if groups == [] {
    } else {
      var first := IdsOf(groups[0]);
      DisjointTotal(groups[1..], all - first);
      assert |all| == |all - first| + |first|;
    }
  }

  lemma {:induction false} ByIdSize(cs: seq<Candidate>)
    ensures |ById(cs)| <= |cs|
  {
    if cs == [] {
    } else {
      ByIdSize(cs[..|cs| - 1]);
    }
  }

  lemma CoverageBound(grouped: nat, n: nat)
    ensures 0.0 <= Coverage(grouped, n)
    ensures grouped <= n ==> Coverage(grouped, n) <= 1.0
    ensures 0 < n < grouped ==> Coverage(grouped, n) > 1.0
  {
    if n > 0 {
      var c := Coverage(grouped, n);
      assert c * n as real == grouped as real;
      Signs(c, n as real);
      Signs(1.0 - c, n as real);
      assert (1.0 - c) * n as real == n as real - grouped as real;
    }
  }

  /** Every candidate is in exactly one place: one group, or the outliers. */
  ghost predicate Partitions(r: Result, cs: seq<Candidate>) {
    && PairwiseDisjoint(r.groups)
    && (forall c | c in cs :: (exists group :: group in r.groups && c in group) <==> c !in r.outliers)
    && (forall group, c | group in r.groups && c in group :: c in cs)
    && (forall c | c in r.outliers :: c in cs)
  }

  lemma SplitDisjoint(ordered: seq<Candidate>, near: Nearness, minSamples: int)
    requires SameIdSame(ordered) && IsSymmetric(near) && minSamples <= 3
    ensures PairwiseDisjoint(Split(ordered, near, minSamples).0)
    ensures TotalSize(Split(ordered, near, minSamples).0) <= |ordered|
  {
    var g := GraphOf(ordered, near, minSamples);
    GraphSymmetric(ordered, near, minSamples);
    SplitFacts(ordered, near, minSamples);
    ByIdKeyed(ordered);
    forall i, j, x | 0 <= i < j < |Clusters(g)| && x in Clusters(g)[i] ensures x !in Clusters(g)[j] {
      GroupsDisjoint(g, minSamples, i, j, x);
    }
    PickDisjoint(ById(ordered), Clusters(g));
    SortDisjoint(PickGroups(ById(ordered), Clusters(g)));
    ByIdSize(ordered);
    DisjointTotal(Split(ordered, near, minSamples).0, ById(ordered).Keys);
  }

  /** For `min_samples` up to three the call succeeds and splits the candidates into disjoint groups
      and outliers, with coverage within 0..1. */
  lemma AtMostThreePartitions(cs: seq<Candidate>, eps: real, minSamples: int)
    requires eps >= 0.0 && 1 <= minSamples <= 3 && SameIdSame(cs)
    ensures GroupsOf(cs, eps, minSamples).Grouped?
    ensures var r := GroupsOf(cs, eps, minSamples).result;
            && Partitions(r, cs) && 0.0 <= r.metrics.coverage <= 1.0
            && r.metrics.grouped == TotalSize(r.groups) <= r.metrics.candidates == |cs|
  {
    var ordered, near := StableSort(IdOf, cs), Within(eps);
    SameMembersOrdered(cs);
    WithinSymmetric(eps);
    SplitDisjoint(ordered, near, minSamples);
    SplitFacts(ordered, near, minSamples);
    var (groups, outliers) := Split(ordered, near, minSamples);
    CoverageBound(TotalSize(groups), |cs|);
    var g := GraphOf(ordered, near, minSamples);
    forall c | c in cs ensures (exists group :: group in groups && c in group) <==> c !in outliers {
      ByIdFacts(ordered, c.id);
      UnionMember(Clusters(g), c.id);
      ByIdKeyed(ordered);
      if c !in outliers {
        var s :| s in Clusters(g) && c.id in s;
        PickSortedFacts(ById(ordered), s);
        assert c in PickSorted(ById(ordered), s);
      }
    }
    forall group, c | group in groups && c in group ensures c in cs {
      ByIdFacts(ordered, c.id);
    }
  }

  // ----- raising epsilon -----

  /** Raising epsilon puts every old group inside a new group and never creates an outlier. */
  lemma RaisingEpsilonMerges(cs: seq<Candidate>, eps: real, larger: real, minSamples: int)
    requires eps <= larger
    requires GroupsOf(cs, eps, minSamples).Grouped? && GroupsOf(cs, larger, minSamples).Grouped?
    ensures var r, r' := GroupsOf(cs, eps, minSamples).result, GroupsOf(cs, larger, minSamples).result;
            && (forall group | group in r.groups ::
                  exists group' :: group' in r'.groups && forall c | c in group :: c in group')
            && (forall c | c in r'.outliers :: c in r.outliers)
  {
    var ordered := StableSort(IdOf, cs);
    SplitMerges(ordered, Within(eps), Within(larger), minSamples);
  }

  lemma SplitMerges(cs: seq<Candidate>, near: Nearness, far: Nearness, minSamples: int)
    requires forall d, e :: near(d, e) ==> far(d, e)
    ensures forall group | group in Split(cs, near, minSamples).0 ::
              exists group' :: group' in Split(cs, far, minSamples).0 && forall c | c in group :: c in group'
    ensures forall c | c in Split(cs, far, minSamples).1 :: c in Split(cs, near, minSamples).1
  {
    var g, h := GraphOf(cs, near, minSamples), GraphOf(cs, far, minSamples);
    GraphGrows(cs, near, far, minSamples);
    GraphWellFormed(cs, near, minSamples);
    GraphWellFormed(cs, far, minSamples);
    forall group | group in Split(cs, near, minSamples).0
      ensures exists group' :: group' in Split(cs, far, minSamples).0 && forall c | c in group :: c in group'
    {
      SplitFacts(cs, near, minSamples);
      ClusterMerges(g, h, IdsOf(group));
      var t :| t in Clusters(h) && IdsOf(group) <= t;
      GroupInsidePick(cs, far, minSamples, group, t);
    }
    forall c | c in Split(cs, far, minSamples).1 ensures c in Split(cs, near, minSamples).1 {
      StillOutlier(cs, near, far, minSamples, c);
    }
  }

  lemma GroupInsidePick(cs: seq<Candidate>, near: Nearness, minSamples: int, group: seq<Candidate>, t: set<Uuid>)
    requires t in Clusters(GraphOf(cs, near, minSamples)) && IdsOf(group) <= t
    requires forall c | c in group :: c.id in ById(cs) && c == ById(cs)[c.id]
    ensures exists group' :: group' in Split(cs, near, minSamples).0 && forall c | c in group :: c in group'
  {
    SplitFacts(cs, near, minSamples);
    ByIdKeyed(cs);
    PickSortedFacts(ById(cs), t);
    forall c | c in group ensures c in PickSorted(ById(cs), t) {
      assert c.id in IdsOf(group);
    }
  }

  lemma StillOutlier(cs: seq<Candidate>, near: Nearness, far: Nearness, minSamples: int, c: Candidate)
    requires forall d, e :: near(d, e) ==> far(d, e)
    requires c in Split(cs, far, minSamples).1
    ensures c in Split(cs, near, minSamples).1
  {
    var g, h := GraphOf(cs, near, minSamples), GraphOf(cs, far, minSamples);
    GraphGrows(cs, near, far, minSamples);
    GraphWellFormed(cs, near, minSamples);
    GraphWellFormed(cs, far, minSamples);
    SplitFacts(cs, near, minSamples);
    SplitFacts(cs, far, minSamples);
    UnionMember(Clusters(g), c.id);
    UnionMember(Clusters(h), c.id);
    if c.id in UnionOf(Clusters(g)) {
      var s :| s in Clusters(g) && c.id in s;
      ClusterMerges(g, h, s);
    }
  }

  // ----- the order of the result -----

  lemma {:induction false} PickAllAt(byId: map<Uuid, Candidate>, ids: seq<Uuid>, i: nat)
    requires i < |ids| && forall x | x in ids :: x in byId
    ensures |PickAll(byId, ids)| == |ids| && PickAll(byId, ids)[i] == byId[ids[i]]
  {
    if i == 0 {
      PickAllFacts(byId, ids, byId[ids[0]]);
    } else {
      PickAllAt(byId, ids[1..], i - 1);
    }
  }

  lemma PickedInIdOrder(byId: map<Uuid, Candidate>, s: set<Uuid>, i: nat, j: nat)
    requires s <= byId.Keys && KeyedById(byId) && i < j < |PickSorted(byId, s)|
    ensures PickSorted(byId, s)[i].id < PickSorted(byId, s)[j].id
  {
    PickSortedFacts(byId, s);
    SortedSetIncreasing(s);
    forall x | x in SortedSet(s) ensures x in byId { SortedSetMembers(s, x); }
    PickAllAt(byId, SortedSet(s), i);
    PickAllAt(byId, SortedSet(s), j);
    IncreasingAt(SortedSet(s), i, j);
  }

  lemma {:induction false} UnassignedSorted(cs: seq<Candidate>, taken: set<Uuid>)
    requires SortedBy(IdOf, cs)
    ensures SortedBy(IdOf, Unassigned(cs, taken))
  {
    if cs == [] {
    } else {
      UnassignedSorted(cs[1..], taken);
      var rest := Unassigned(cs[1..], taken);
      if cs[0].id in taken {
        assert Unassigned(cs, taken) == rest;
      } else {
        assert ([cs[0]] + rest)[1..] == rest;
        forall c | c in rest ensures IdOf(cs[0]) <= IdOf(c) { UnassignedMember(cs[1..], taken, c); }
      }
    }
  }

  /** Members are listed by id, groups by their first id, and outliers by id. */
  ghost predicate InIdOrder(r: Result) {
    && (forall group: seq<Candidate>, i, j | group in r.groups && 0 <= i < j < |group| :: group[i].id < group[j].id)
    && (forall i, j | 0 <= i < j < |r.groups| :: FirstId(r.groups[i]) <= FirstId(r.groups[j]))
    && (forall i, j | 0 <= i < j < |r.outliers| :: r.outliers[i].id <= r.outliers[j].id)
  }

  lemma MembersInIdOrder(ordered: seq<Candidate>, near: Nearness, minSamples: int, group: seq<Candidate>, i: nat,
                         j: nat)
    requires group in Split(ordered, near, minSamples).0 && i < j < |group|
    ensures group[i].id < group[j].id
  {
    var g, byId := GraphOf(ordered, near, minSamples), ById(ordered);
    GraphWellFormed(ordered, near, minSamples);
    ClusterSetsWithin(g, SortedSet(g.cores), {});
    var picked := PickGroups(byId, Clusters(g));
    StableSortSorts(FirstId, picked);
    assert group in multiset(StableSort(FirstId, picked));
    assert group in multiset(picked);
    PickGroupsMember(byId, Clusters(g), group);
    var s :| s in Clusters(g) && group == PickSorted(byId, s);
    ByIdKeyed(ordered);
    PickedInIdOrder(byId, s, i, j);
  }

  lemma SplitOrdered(cs: seq<Candidate>, near: Nearness, minSamples: int)
    ensures var (groups, outliers) := Split(StableSort(IdOf, cs), near, minSamples);
            SortedBy(FirstId, groups) && SortedBy(IdOf, outliers)
  {
    var ordered := StableSort(IdOf, cs);
    var g := GraphOf(ordered, near, minSamples);
    GraphWellFormed(ordered, near, minSamples);
    ClusterSetsWithin(g, SortedSet(g.cores), {});
    StableSortSorts(IdOf, cs);
    StableSortSorts(FirstId, PickGroups(ById(ordered), Clusters(g)));
    UnassignedSorted(ordered, UnionOf(Clusters(g)));
  }

  /** Whatever the input order, a result is listed in id order throughout. */
  lemma ResultInIdOrder(cs: seq<Candidate>, eps: real, minSamples: int)
    requires GroupsOf(cs, eps, minSamples).Grouped?
    ensures InIdOrder(GroupsOf(cs, eps, minSamples).result)
  {
    var ordered, r := StableSort(IdOf, cs), GroupsOf(cs, eps, minSamples).result;
    var (groups, outliers) := Split(ordered, Within(eps), minSamples);
    SplitOrdered(cs, Within(eps), minSamples);
    forall group: seq<Candidate>, i, j | group in groups && 0 <= i < j < |group| ensures group[i].id < group[j].id {
      MembersInIdOrder(ordered, Within(eps), minSamples, group, i, j);
    }
    forall i, j | 0 <= i < j < |groups| ensures FirstId(groups[i]) <= FirstId(groups[j]) {
      SortedAt(FirstId, groups, i, j);
    }
    forall i, j | 0 <= i < j < |outliers| ensures outliers[i].id <= outliers[j].id {
      SortedAt(IdOf, outliers, i, j);
    }
  }

  // ----- outliers, in terms of the features -----

  /** The candidates differ by more than epsilon for each feature name. */
  ghost predicate Far(eps: real, c: Candidate, d: Candidate) { !DifferByAtMost(c.features, d.features, eps) }

  /** Only `c` itself is near `c`, as often as it is listed, exactly when every other candidate is not. */
  lemma {:induction false} NearIdsCount(c: Candidate, cs: seq<Candidate>, near: Nearness)
    requires near(c, c)
    ensures |NearIds(c, cs, near)| >= multiset(cs)[c]
    ensures |NearIds(c, cs, near)| == multiset(cs)[c] <==> forall d | d in cs && d != c :: !near(c, d)
  {
    if cs == [] {
    } else {
      var front, last := cs[..|cs| - 1], cs[|cs| - 1];
      NearIdsCount(c, front, near);
      assert cs == front + [last];
      assert forall d :: d in cs <==> d in front || d == last;
    }
  }

  lemma AloneIffOneNear(g: Graph, x: Uuid)
    requires SymmetricGraph(g) && DenseCores(g, 2) && x in g.nbrs
    ensures x !in UnionOf(Clusters(g)) <==> |g.nbrs[x]| < 2
  {
    OutlierIffNoCoreNear(g, x);
    if |g.nbrs[x]| < 2 {
      assert g.nbrs[x] == [x];
    }
  }

  lemma OutlierIffOneNear(ordered: seq<Candidate>, near: Nearness, c: Candidate)
    requires SameIdSame(ordered) && IsSymmetric(near) && c in ordered
    ensures c in Split(ordered, near, 2).1 <==> |NearIds(c, ordered, near)| < 2
  {
    var g := GraphOf(ordered, near, 2);
    GraphSymmetric(ordered, near, 2);
    SplitFacts(ordered, near, 2);
    ByIdFacts(ordered, c.id);
    AloneIffOneNear(g, c.id);
  }

  lemma CallOutliers(cs: seq<Candidate>, ordered: seq<Candidate>, near: Nearness, eps: real, c: Candidate)
    requires SameIdSame(cs) && eps >= 0.0 && c in cs && near == Within(eps) && ordered == StableSort(IdOf, cs)
    ensures GroupsOf(cs, eps, 2).Grouped?
    ensures c in GroupsOf(cs, eps, 2).result.outliers <==> |NearIds(c, ordered, near)| < 2
  {
    AtMostThreePartitions(cs, eps, 2);
    SameMembersOrdered(cs);
    WithinSymmetric(eps);
    OutlierIffOneNear(ordered, near, c);
  }

  lemma NearIffNotFar(near: Nearness, eps: real, c: Candidate, d: Candidate)
    requires near == Within(eps) && eps >= 0.0
    ensures near(c, d) <==> !Far(eps, c, d)
    ensures near(c, c)
  {
    NearIff(c.features, d.features, eps);
    WithinSymmetric(eps);
  }

  /** At the default of two samples a candidate is an outlier exactly when it is listed once and differs from
      every other candidate by more than epsilon for each feature name. */
  lemma OutlierIffFar(cs: seq<Candidate>, eps: real, c: Candidate)
    requires SameIdSame(cs) && eps >= 0.0 && c in cs
    ensures GroupsOf(cs, eps, 2).Grouped?
    ensures c in GroupsOf(cs, eps, 2).result.outliers <==>
              multiset(cs)[c] == 1 && forall d | d in cs && d != c :: Far(eps, c, d)
  {
    var ordered, near := StableSort(IdOf, cs), Within(eps);
    CallOutliers(cs, ordered, near, eps, c);
    SameMembersOrdered(cs);
    StableSortSorts(IdOf, cs);
    forall d ensures near(c, d) <==> !Far(eps, c, d) { NearIffNotFar(near, eps, c, d); }
    NearIffNotFar(near, eps, c, c);
    NearIdsCount(c, ordered, near);
    OthersFar(cs, ordered, near, eps, c);
  }

  lemma OthersFar(cs: seq<Candidate>, ordered: seq<Candidate>, near: Nearness, eps: real, c: Candidate)
    requires multiset(ordered) == multiset(cs) && (forall d :: d in ordered <==> d in cs)
    requires c in cs && |NearIds(c, ordered, near)| >= multiset(ordered)[c]
    requires |NearIds(c, ordered, near)| == multiset(ordered)[c] <==> forall d | d in ordered && d != c :: !near(c, d)
    requires forall d | d in cs && d != c :: near(c, d) <==> !Far(eps, c, d)
    ensures |NearIds(c, ordered, near)| < 2 <==> multiset(cs)[c] == 1 && forall d | d in cs && d != c :: Far(eps, c, d)
  {
    assert c in multiset(cs);
  }

  // ----- counting -----

  lemma {:induction false} DisjointSize(groups: seq<seq<Candidate>>, all: set<Uuid>)
    requires PairwiseDisjoint(groups) && forall group | group in groups :: |group| == |IdsOf(group)|
    requires forall x :: x in all <==> exists group :: group in groups && x in IdsOf(group)
    ensures TotalSize(groups) == |all|
  {
    if groups == [] {
    } else {
      var first := IdsOf(groups[0]);
      assert groups[0] in groups;
      forall x ensures x in all - first <==> exists group :: group in groups[1..] && x in IdsOf(group) {
        if x in all - first {
          var group :| group in groups && x in IdsOf(group);
          assert group in groups[1..];
        }
      }
      DisjointSize(groups[1..], all - first);
      assert |all| == |all - first| + |first|;
    }
  }

  lemma FirstTaken(cs: seq<Candidate>, taken: set<Uuid>)
    requires cs != [] && forall i | 0 < i < |cs| :: cs[0].id != cs[i].id
    ensures |taken * IdsOf(cs)| == |taken * IdsOf(cs[1..])| + if cs[0].id in taken then 1 else 0
  {
    var rest := IdsOf(cs[1..]);
    assert cs[0].id !in rest;
    assert IdsOf(cs) == {cs[0].id} + rest by { assert cs == [cs[0]] + cs[1..]; }
    if cs[0].id in taken {
      assert taken * IdsOf(cs) == taken * rest + {cs[0].id};
    } else {
      assert taken * IdsOf(cs) == taken * rest;
    }
  }

  lemma {:induction false} UnassignedSize(cs: seq<Candidate>, taken: set<Uuid>)
    requires forall i, j | 0 <= i < j < |cs| :: cs[i].id != cs[j].id
    ensures |Unassigned(cs, taken)| + |taken * IdsOf(cs)| == |cs|
  {
    if cs == [] {
    } else {
      UnassignedSize(cs[1..], taken);
      FirstTaken(cs, taken);
    }
  }

  lemma {:induction false} UnassignedInsertSize(c: Candidate, s: seq<Candidate>, taken: set<Uuid>)
    ensures |Unassigned(Insert(IdOf, c, s), taken)| == |Unassigned(s, taken)| + if c.id in taken then 0 else 1
  {
    if s == [] || c.id <= s[0].id {
      assert ([c] + s)[1..] == s;
    } else {
      UnassignedInsertSize(c, s[1..], taken);
      var t := Insert(IdOf, c, s[1..]);
      assert ([s[0]] + t)[1..] == t;
    }
  }

  lemma {:induction false} UnassignedSortSize(cs: seq<Candidate>, taken: set<Uuid>)
    ensures |Unassigned(StableSort(IdOf, cs), taken)| == |Unassigned(cs, taken)|
  {
    if cs != [] {
      UnassignedSortSize(cs[1..], taken);
      UnassignedInsertSize(cs[0], StableSort(IdOf, cs[1..]), taken);
    }
  }

  ghost predicate DistinctIds(cs: seq<Candidate>) { forall i, j | 0 <= i < j < |cs| :: cs[i].id != cs[j].id }

  lemma GroupedSize(ordered: seq<Candidate>, near: Nearness, minSamples: int)
    requires SameIdSame(ordered) && IsSymmetric(near) && minSamples <= 3
    ensures TotalSize(Split(ordered, near, minSamples).0)
         == |UnionOf(Clusters(GraphOf(ordered, near, minSamples)))|
  {
    var groups, all := Split(ordered, near, minSamples).0, UnionOf(Clusters(GraphOf(ordered, near, minSamples)));
    SplitDisjoint(ordered, near, minSamples);
    SplitFacts(ordered, near, minSamples);
    forall x ensures x in all <==> exists group :: group in groups && x in IdsOf(group) {
      InGroupsIff(ordered, near, minSamples, x);
    }
    DisjointSize(groups, all);
  }

  /** Up to `min_samples` 3 no candidate is lost or counted twice in the metrics. */
  lemma MetricsBalance(cs: seq<Candidate>, eps: real, minSamples: int)
    requires eps >= 0.0 && 1 <= minSamples <= 3 && DistinctIds(cs)
    ensures GroupsOf(cs, eps, minSamples).Grouped?
    ensures var r := GroupsOf(cs, eps, minSamples).result;
            && r.metrics.grouped + r.metrics.outliers == r.metrics.candidates == |cs|
            && r.metrics.outliers == |r.outliers| && r.metrics.groups == |r.groups|
            && r.metrics.coverage == if cs == [] then 0.0 else 1.0 - |r.outliers| as real / |cs| as real
  {
    var ordered, near := StableSort(IdOf, cs), Within(eps);
    var taken := UnionOf(Clusters(GraphOf(ordered, near, minSamples)));
    AtMostThreePartitions(cs, eps, minSamples);
    SameMembersOrdered(cs);
    WithinSymmetric(eps);
    GroupedSize(ordered, near, minSamples);
    UnassignedSortSize(cs, taken);
    UnassignedSize(cs, taken);
    forall x | x in taken ensures x in IdsOf(cs) {
      TakenIsListed(cs, ordered, near, minSamples, x);
    }
    assert taken * IdsOf(cs) == taken;
    if cs != [] {
      SharesAddUp(TotalSize(Split(ordered, near, minSamples).0), |Unassigned(ordered, taken)|, |cs|);
    }
  }

  lemma TakenIsListed(cs: seq<Candidate>, ordered: seq<Candidate>, near: Nearness, minSamples: int, x: Uuid)
    requires x in UnionOf(Clusters(GraphOf(ordered, near, minSamples))) && forall c :: c in ordered <==> c in cs
    ensures x in IdsOf(cs)
  {
    var g := GraphOf(ordered, near, minSamples);
    GraphWellFormed(ordered, near, minSamples);
    ClusterSetsWithin(g, SortedSet(g.cores), {});
    UnionMember(Clusters(g), x);
    ByIdFacts(ordered, x);
  }

  lemma SharesAddUp(a: nat, b: nat, n: nat)
    requires a + b == n > 0
    ensures a as real / n as real == 1.0 - b as real / n as real
  {
    var x, y, m := a as real / n as real, b as real / n as real, n as real;
    assert x * m == a as real && y * m == b as real;
    assert (x + y - 1.0) * m == a as real + b as real - m == 0.0;
    Signs(x + y - 1.0, m);
  }
}
