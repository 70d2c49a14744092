/** The bound on `min_samples`: from four on, a border point next to two groups makes the call fail. */
module GroupingBound {
  import opened Ordering
  import opened FeatureDistance
  import opened Grouping
  import opened GroupingTheorems
  import opened GroupingResults

  /** Two dense clumps at 0 and 1, a core next to each, one border point in the middle, and a point far away. */
  function Position(m: nat, i: nat): real {
    if i + 2 < m then 0.0
    else if i + 2 == m then 0.25
    else if i + 1 == m then 0.5
    else if i == m then 0.75
    else if i < 2 * m - 1 then 1.0
    else 5.0
  }

  function Point(m: nat, i: nat): Candidate {
    Candidate(i, i, map["v" := Number(Position(m, i))])
  }

  /** The first `n` points of the line. */
  function Line(m: nat, n: nat): seq<Candidate> {
    if n == 0 then [] else Line(m, n - 1) + [Point(m, n - 1)]
  }

  const QUARTER := 0.25

  lemma {:induction false} LineAt(m: nat, n: nat)
    ensures |Line(m, n)| == n && forall i | 0 <= i < n :: Line(m, n)[i] == Point(m, i)
  {
    if n == 0 {
    } else {
      LineAt(m, n - 1);
    }
  }

  /** The distance of two candidates with the one feature `v`. */
  lemma OneFeature(f: Features, g: Features, p: real, q: real)
    requires f == map["v" := Number(p)] && g == map["v" := Number(q)]
    ensures var ratio := Abs(p - q) / Scale(p, q);
            Distance(f, g) == if ratio < 1.0 then ratio else 1.0
  {
    assert f.Keys + g.Keys == {"v"};
    TermSumRemove(f, g, {"v"}, "v");
    assert {"v"} - {"v"} == {};
    assert TermSum(f, g, {"v"}) == Term(f, g, "v");
  }

  lemma CloseNumbers(f: Features, g: Features, p: real, q: real)
    requires f == map["v" := Number(p)] && g == map["v" := Number(q)] && 0.0 <= p <= 1.0 && 0.0 <= q <= 1.0
    ensures Distance(f, g) == Abs(p - q)
  {
    assert Scale(p, q) == 1.0 && Abs(p - q) / 1.0 == Abs(p - q) <= 1.0;
    OneFeature(f, g, p, q);
  }

  lemma PositionClose(m: nat, i: nat)
    requires i < 2 * m - 1
    ensures 0.0 <= Position(m, i) <= 1.0
  {
  }

  lemma PointDistance(m: nat, i: nat, j: nat)
    requires i < 2 * m - 1 && j < 2 * m - 1
    ensures Distance(Point(m, i).features, Point(m, j).features) == Abs(Position(m, i) - Position(m, j))
  {
    PositionClose(m, i);
    PositionClose(m, j);
    CloseNumbers(Point(m, i).features, Point(m, j).features, Position(m, i), Position(m, j));
  }

  lemma FarDistance(m: nat, i: nat, j: nat)
    requires m >= 4 && (i == 2 * m - 1 || j == 2 * m - 1) && i < 2 * m && j < 2 * m
    ensures Distance(Point(m, i).features, Point(m, j).features) <= QUARTER <==> i == j
  {
    var p, q := Position(m, i), Position(m, j);
    OneFeature(Point(m, i).features, Point(m, j).features, p, q);
    if i == j {
      assert Abs(p - q) == 0.0 && Scale(p, q) == 5.0;
    } else {
      assert Abs(p - q) >= 4.0 && Scale(p, q) == 5.0;
    }
  }

  /** Where the points near point `i` begin and end. */
  function Low(m: nat, i: nat): nat
    requires m >= 4
  {
    if i < m - 1 then 0 else if i == m - 1 then m - 2 else if i == m then m - 1 else if i < 2 * m - 1 then m else i
  }

  function High(m: nat, i: nat): nat
    requires m >= 4
  {
    if i < m - 2 then m - 1
    else if i == m - 2 then m
    else if i == m - 1 then m + 1
    else if i < 2 * m - 1 then 2 * m - 1
    else i + 1
  }

  lemma NearIsInterval(m: nat, i: nat, j: nat)
    requires m >= 4 && i < 2 * m && j < 2 * m
    ensures Within(QUARTER)(Point(m, i), Point(m, j)) <==> Low(m, i) <= j < High(m, i)
  {
    if i < 2 * m - 1 && j < 2 * m - 1 {
      PointDistance(m, i, j);
    } else {
      FarDistance(m, i, j);
    }
  }

  /** Candidates numbered by position. */
  ghost predicate Numbered(cs: seq<Candidate>) { forall j | 0 <= j < |cs| :: cs[j].id == j }

  lemma {:induction false} NearIdsInterval(c: Candidate, cs: seq<Candidate>, near: Nearness, lo: nat, hi: nat)
    requires Numbered(cs) && lo <= hi && forall j | 0 <= j < |cs| :: near(c, cs[j]) <==> lo <= j < hi
    ensures |NearIds(c, cs, near)| == (if |cs| < lo then 0 else if |cs| < hi then |cs| - lo else hi - lo)
    ensures forall x: Uuid :: x in NearIds(c, cs, near) <==> x < |cs| && lo <= x < hi
  {
    if cs == [] {
    } else {
      var front := cs[..|cs| - 1];
      NearIdsInterval(c, front, near, lo, hi);
    }
  }

  lemma {:induction false} ByIdNumbered(cs: seq<Candidate>, x: Uuid)
    requires Numbered(cs)
    ensures x in ById(cs) <==> x < |cs|
    ensures x < |cs| ==> ById(cs)[x] == cs[x]
  {
    if cs == [] {
    } else {
      ByIdNumbered(cs[..|cs| - 1], x);
    }
  }

  /** The neighbour graph of the line: only the two inner nodes are cores. */
  ghost predicate LineShape(g: Graph, m: nat) {
    && m >= 4 && WellFormed(g)
    && (forall x: Uuid :: x < 2 * m - 1 ==> x in g.nbrs)
    && g.cores == {m - 2, m}
    && (forall x: Uuid, y: Uuid | x in g.nbrs :: y in g.nbrs[x] <==> Low(m, x) <= y < High(m, x))
  }

  /** The nearness the witness realises: point `i` is near exactly an interval of points. */
  ghost predicate OnLine(m: nat, cs: seq<Candidate>, near: Nearness) {
    && m >= 4 && Numbered(cs) && 2 * m - 1 <= |cs| <= 2 * m
    && forall i, j | 0 <= i < |cs| && 0 <= j < |cs| :: near(cs[i], cs[j]) <==> Low(m, i) <= j < High(m, i)
  }

  lemma LineNeighbours(m: nat, cs: seq<Candidate>, near: Nearness, x: Uuid)
    requires OnLine(m, cs, near) && x < |cs|
    ensures x in GraphOf(cs, near, m).nbrs
    ensures |GraphOf(cs, near, m).nbrs[x]| == High(m, x) - Low(m, x)
    ensures forall y: Uuid :: y in GraphOf(cs, near, m).nbrs[x] <==> Low(m, x) <= y < High(m, x)
  {
    ByIdNumbered(cs, x);
    NearIdsInterval(cs[x], cs, near, Low(m, x), High(m, x));
  }

  lemma CoresOnLine(m: nat, cs: seq<Candidate>, near: Nearness, x: Uuid)
    requires OnLine(m, cs, near)
    ensures x in GraphOf(cs, near, m).nbrs <==> x < |cs|
    ensures x in GraphOf(cs, near, m).cores <==> x == m - 2 || x == m
  {
    ByIdNumbered(cs, x);
    if x < |cs| {
      LineNeighbours(m, cs, near, x);
    }
  }

  lemma LineCores(m: nat, cs: seq<Candidate>, near: Nearness)
    requires OnLine(m, cs, near)
    ensures GraphOf(cs, near, m).cores == {m - 2, m}
  {
    var cores := GraphOf(cs, near, m).cores;
    forall x: Uuid ensures x in cores <==> x in {m - 2, m} { CoresOnLine(m, cs, near, x); }
  }

  lemma NodesOnLine(m: nat, cs: seq<Candidate>, near: Nearness, x: Uuid)
    requires OnLine(m, cs, near)
    ensures var g := GraphOf(cs, near, m);
            && (x in g.nbrs <==> x < |cs|)
            && (x in g.nbrs ==> forall y: Uuid :: y in g.nbrs[x] <==> Low(m, x) <= y < High(m, x))
  {
    CoresOnLine(m, cs, near, x);
    if x < |cs| {
      LineNeighbours(m, cs, near, x);
    }
  }

  lemma ShapeOfLine(m: nat, cs: seq<Candidate>, near: Nearness)
    requires OnLine(m, cs, near)
    ensures LineShape(GraphOf(cs, near, m), m)
  {
    var g := GraphOf(cs, near, m);
    GraphWellFormed(cs, near, m);
    LineCores(m, cs, near);
    forall x: Uuid
      ensures x in g.nbrs <==> x < |cs|
      ensures x in g.nbrs ==> forall y: Uuid :: y in g.nbrs[x] <==> Low(m, x) <= y < High(m, x)
    {
      NodesOnLine(m, cs, near, x);
    }
  }

  /** Each of the two cores reaches exactly its own neighbours. */
  lemma LineReach(g: Graph, m: nat, c: Uuid)
    requires LineShape(g, m) && (c == m - 2 || c == m)
    ensures forall x: Uuid :: x in Reach(g, c) <==> Low(m, c) <= x < High(m, c)
  {
    var members := set x | x in g.nbrs && Low(m, c) <= x < High(m, c);
    ReachesSelf(g, c);
    forall x | x in members ensures Reaches(g, c, x) {
      ReachesStep(g, c, c, x);
    }
    ClosedIsReach(g, c, members);
  }

  lemma {:induction false} IntervalSize(s: set<Uuid>, lo: nat, hi: nat)
    requires lo <= hi && forall x: Uuid :: x in s <==> lo <= x < hi
    ensures |s| == hi - lo
    decreases hi - lo
  {
    if lo == hi {
      assert s == {};
    } else {
      IntervalSize(s - {lo}, lo + 1, hi);
    }
  }

  lemma {:induction false} TotalOfSorted(groups: seq<seq<Candidate>>)
    ensures TotalSize(StableSort(FirstId, groups)) == TotalSize(groups)
  {
    if groups == [] {
    } else {
      TotalOfSorted(groups[1..]);
      TotalOfInsert(groups[0], StableSort(FirstId, groups[1..]));
    }
  }

  lemma {:induction false} TotalOfInsert(group: seq<Candidate>, groups: seq<seq<Candidate>>)
    ensures TotalSize(Insert(FirstId, group, groups)) == |group| + TotalSize(groups)
  {
    if groups == [] || FirstId(group) <= FirstId(groups[0]) {
      assert ([group] + groups)[1..] == groups;
    } else {
      TotalOfInsert(group, groups[1..]);
      var rest := Insert(FirstId, group, groups[1..]);
      assert ([groups[0]] + rest)[1..] == rest;
    }
  }

  lemma LineClusters(g: Graph, m: nat)
    requires LineShape(g, m)
    ensures Clusters(g) == [Reach(g, m - 2), Reach(g, m)]
  {
    LineReach(g, m, m - 2);
    SortedPair(m - 2, m);
    TwoSeeds(g, m - 2, m);
  }

  lemma TwoSeeds(g: Graph, a: Uuid, b: Uuid)
    requires b !in Reach(g, a)
    ensures ClusterSets(g, [a, b], {}) == [Reach(g, a), Reach(g, b)]
  {
    var rest: seq<Uuid>, none: seq<Uuid> := [b], [];
    assert [a, b][1..] == rest && rest[1..] == none;
    assert {} + Reach(g, a) == Reach(g, a);
    assert ClusterSets(g, none, Reach(g, a) + Reach(g, b)) == [];
    assert ClusterSets(g, rest, Reach(g, a)) == [Reach(g, b)];
  }

  lemma SortedPair(a: nat, b: nat)
    requires a < b
    ensures SortedSet({a, b}) == [a, b]
  {
    assert Least({a, b}) == a;
    assert {a, b} - {a} == {b};
    assert Least({b}) == b;
    assert {b} - {b} == {};
    assert SortedSet({b}) == [b];
  }

  /** Sorted candidates whose groups together hold more than all of them. */
  ghost predicate Overfull(cs: seq<Candidate>, eps: real, m: nat) {
    StableSort(IdOf, cs) == cs && 0 < |cs| < TotalSize(Split(cs, Within(eps), m).0)
  }

  lemma CallIsAssembled(cs: seq<Candidate>, eps: real, m: nat)
    requires eps >= 0.0 && m >= 1 && StableSort(IdOf, cs) == cs
    ensures GroupsOf(cs, eps, m) == Assemble(Split(cs, Within(eps), m).0, Split(cs, Within(eps), m).1, |cs|)
  {
  }

  lemma Assembled(groups: seq<seq<Candidate>>, outliers: seq<Candidate>, n: nat)
    requires n > 0
    ensures var r := Assemble(groups, outliers, n);
            if TotalSize(groups) <= n then r.Grouped? && r.result.groups == groups && r.result.outliers == outliers
            else r == Rejected(CoverageOutOfRange)
  {
    CoverageBound(TotalSize(groups), n);
  }

  lemma RejectedWhenOverfull(cs: seq<Candidate>, eps: real, m: nat)
    requires eps >= 0.0 && m >= 1 && Overfull(cs, eps, m)
    ensures GroupsOf(cs, eps, m) == Rejected(CoverageOutOfRange)
  {
    CallIsAssembled(cs, eps, m);
    Assembled(Split(cs, Within(eps), m).0, Split(cs, Within(eps), m).1, |cs|);
  }

  lemma LineNear(m: nat, n: nat)
    requires m >= 4 && 2 * m - 1 <= n <= 2 * m
    ensures OnLine(m, Line(m, n), Within(QUARTER))
  {
    var cs := Line(m, n);
    LineAt(m, n);
    forall i, j | 0 <= i < |cs| && 0 <= j < |cs|
      ensures Within(QUARTER)(cs[i], cs[j]) <==> Low(m, i) <= j < High(m, i)
    {
      NearIsInterval(m, i, j);
    }
  }

  lemma NumberedSame(cs: seq<Candidate>)
    requires Numbered(cs)
    ensures SameIdSame(cs)
  {
  }

  lemma OverfullLine(m: nat, cs: seq<Candidate>, eps: real)
    requires OnLine(m, cs, Within(eps)) && StableSort(IdOf, cs) == cs && |cs| == 2 * m - 1
    ensures Overfull(cs, eps, m)
  {
    LineTotal(m, cs, Within(eps));
  }

  lemma RejectedOnLine(m: nat, cs: seq<Candidate>, eps: real)
    requires OnLine(m, cs, Within(eps)) && StableSort(IdOf, cs) == cs && |cs| == 2 * m - 1 && eps >= 0.0
    ensures GroupsOf(cs, eps, m) == Rejected(CoverageOutOfRange)
  {
    OverfullLine(m, cs, eps);
    RejectedWhenOverfull(cs, eps, m);
  }

  /** Two groups of `m` share the middle point of `2m - 1`: the coverage exceeds one. */
  lemma LineRejected(m: nat, n: nat, cs: seq<Candidate>)
    requires m >= 4 && n == 2 * m - 1 && cs == Line(m, n)
    ensures GroupsOf(cs, QUARTER, m) == Rejected(CoverageOutOfRange)
  {
    LineNear(m, n);
    LineAt(m, n);
    LineOrdered(m, n);
    RejectedOnLine(m, cs, QUARTER);
  }

  lemma LineTotal(m: nat, cs: seq<Candidate>, near: Nearness)
    requires OnLine(m, cs, near)
    ensures TotalSize(Split(cs, near, m).0) == 2 * m
  {
    var g := GraphOf(cs, near, m);
    ShapeOfLine(m, cs, near);
    LineClusters(g, m);
    LineReach(g, m, m - 2);
    LineReach(g, m, m);
    GraphWellFormed(cs, near, m);
    IntervalSize(Reach(g, m - 2), 0, m);
    IntervalSize(Reach(g, m), m - 1, 2 * m - 1);
    ByIdKeyed(cs);
    TotalOfPair(ById(cs), Reach(g, m - 2), Reach(g, m));
    TotalOfSorted(PickGroups(ById(cs), Clusters(g)));
  }

  lemma TotalOfPair(byId: map<Uuid, Candidate>, a: set<Uuid>, b: set<Uuid>)
    requires a <= byId.Keys && b <= byId.Keys && KeyedById(byId)
    ensures (forall s | s in [a, b] :: s <= byId.Keys)
    ensures TotalSize(PickGroups(byId, [a, b])) == |a| + |b|
  {
    PickSortedFacts(byId, a);
    PickSortedFacts(byId, b);
    var one, none: seq<set<Uuid>> := [b], [];
    assert [a, b][1..] == one && one[1..] == none;
    assert PickGroups(byId, one) == [PickSorted(byId, b)];
    var ga, gb := PickSorted(byId, a), PickSorted(byId, b);
    var tail: seq<seq<Candidate>>, empty: seq<seq<Candidate>> := [gb], [];
    assert PickGroups(byId, [a, b]) == [ga] + tail;
    assert ([ga] + tail)[1..] == tail && tail[1..] == empty;
    assert TotalSize(tail) == |gb|;
  }

  lemma {:induction false} LineOrdered(m: nat, n: nat)
    ensures StableSort(IdOf, Line(m, n)) == Line(m, n)
  {
    LineAt(m, n);
    LineSuffixSorted(m, n, 0);
    assert Line(m, n)[0..] == Line(m, n);
    StableSortSorts(IdOf, Line(m, n));
    var ordered := StableSort(IdOf, Line(m, n));
    forall x, y | x in ordered && y in ordered && IdOf(x) == IdOf(y) ensures x == y {
      assert x in multiset(ordered) && y in multiset(ordered);
      assert x in Line(m, n) && y in Line(m, n);
    }
    SortedUnique(IdOf, ordered, Line(m, n));
  }

  lemma {:induction false} LineSuffixSorted(m: nat, n: nat, k: nat)
    requires k <= n
    ensures |Line(m, n)| == n && SortedBy(IdOf, Line(m, n)[k..])
    decreases n - k
  {
    LineAt(m, n);
    if k < n {
      LineSuffixSorted(m, n, k + 1);
      assert Line(m, n)[k..][1..] == Line(m, n)[k + 1..];
    }
  }

  /** Sorted candidates whose groups together hold as many as there are. */
  ghost predicate Full(cs: seq<Candidate>, eps: real, m: nat) {
    StableSort(IdOf, cs) == cs && 0 < |cs| == TotalSize(Split(cs, Within(eps), m).0)
  }

  lemma AcceptedWhenFull(cs: seq<Candidate>, eps: real, m: nat)
    requires eps >= 0.0 && m >= 1 && Full(cs, eps, m)
    ensures GroupsOf(cs, eps, m).Grouped? && GroupsOf(cs, eps, m).result.groups == Split(cs, Within(eps), m).0
    ensures GroupsOf(cs, eps, m).result.outliers == Split(cs, Within(eps), m).1
  {
    CallIsAssembled(cs, eps, m);
    Assembled(Split(cs, Within(eps), m).0, Split(cs, Within(eps), m).1, |cs|);
  }

  lemma FullLine(m: nat, cs: seq<Candidate>, eps: real)
    requires OnLine(m, cs, Within(eps)) && StableSort(IdOf, cs) == cs && |cs| == 2 * m
    ensures Full(cs, eps, m)
  {
    LineTotal(m, cs, Within(eps));
  }

  lemma BeyondGroups(g: Graph, m: nat, x: Uuid)
    requires LineShape(g, m) && x >= 2 * m - 1
    ensures x !in UnionOf(Clusters(g))
  {
    LineClusters(g, m);
    LineReach(g, m, m - 2);
    LineReach(g, m, m);
    UnionMember(Clusters(g), x);
  }

  /** The far point belongs to no group. */
  lemma FarPointOut(m: nat, cs: seq<Candidate>, near: Nearness)
    requires OnLine(m, cs, near) && |cs| == 2 * m
    ensures cs[2 * m - 1] in Split(cs, near, m).1
  {
    var g := GraphOf(cs, near, m);
    ShapeOfLine(m, cs, near);
    BeyondGroups(g, m, 2 * m - 1);
    KeptUnassigned(cs, UnionOf(Clusters(g)), 2 * m - 1);
  }

  lemma {:induction false} KeptUnassigned(cs: seq<Candidate>, taken: set<Uuid>, i: nat)
    requires i < |cs| && cs[i].id !in taken
    ensures cs[i] in Unassigned(cs, taken)
  {
    if i > 0 {
      KeptUnassigned(cs[1..], taken, i - 1);
    }
  }

  /** Full groups beside an outlier cannot partition: some candidate is in two of them. */
  lemma FullIsNoPartition(r: Result, cs: seq<Candidate>, out: Candidate)
    requires TotalSize(r.groups) == |cs| && SameIdSame(cs) && out in cs && out in r.outliers
    requires forall group | group in r.groups :: |group| == |IdsOf(group)|
    ensures !Partitions(r, cs)
  {
    if Partitions(r, cs) {
      var all := ById(cs).Keys - {out.id};
      ByIdSize(cs);
      ByIdFacts(cs, out.id);
      forall group | group in r.groups ensures IdsOf(group) <= all {
        forall x | x in IdsOf(group) ensures x in all {
          var c :| c in group && c.id == x;
          ByIdFacts(cs, x);
        }
      }
      DisjointTotal(r.groups, all);
      assert false;
    }
  }

  lemma AcceptedOnLine(m: nat, cs: seq<Candidate>, eps: real)
    requires OnLine(m, cs, Within(eps)) && StableSort(IdOf, cs) == cs && |cs| == 2 * m && eps >= 0.0
    ensures SameIdSame(cs) && GroupsOf(cs, eps, m).Grouped? && !Partitions(GroupsOf(cs, eps, m).result, cs)
  {
    NumberedSame(cs);
    FullLine(m, cs, eps);
    AcceptedWhenFull(cs, eps, m);
    FarPointOut(m, cs, Within(eps));
    SplitFacts(cs, Within(eps), m);
    FullIsNoPartition(GroupsOf(cs, eps, m).result, cs, cs[2 * m - 1]);
  }

  /** With one outlier more the coverage is one: the call succeeds, and its groups overlap. */
  lemma OverlapAccepted(m: nat, n: nat, cs: seq<Candidate>)
    requires m >= 4 && n == 2 * m && cs == Line(m, n)
    ensures SameIdSame(cs) && GroupsOf(cs, QUARTER, m).Grouped?
    ensures !Partitions(GroupsOf(cs, QUARTER, m).result, cs)
  {
    LineNear(m, n);
    LineAt(m, n);
    LineOrdered(m, n);
    AcceptedOnLine(m, cs, QUARTER);
  }

  /** Grouping succeeds on every input whose ids identify its candidates. */
  ghost predicate AlwaysGroups(minSamples: nat) {
    forall cs, eps | eps >= 0.0 && SameIdSame(cs) :: GroupsOf(cs, eps, minSamples).Grouped?
  }

  lemma NotAlways(minSamples: nat, cs: seq<Candidate>, eps: real)
    requires eps >= 0.0 && Numbered(cs) && !GroupsOf(cs, eps, minSamples).Grouped?
    ensures !AlwaysGroups(minSamples)
  {
    NumberedSame(cs);
  }

  lemma AlwaysUpToThree(minSamples: nat)
    requires 1 <= minSamples <= 3
    ensures AlwaysGroups(minSamples)
  {
    forall cs, eps | eps >= 0.0 && SameIdSame(cs) ensures GroupsOf(cs, eps, minSamples).Grouped? {
      AtMostThreePartitions(cs, eps, minSamples);
    }
  }

  lemma FailsFromFour(minSamples: nat, n: nat)
    requires minSamples >= 4 && n == 2 * minSamples - 1
    ensures !AlwaysGroups(minSamples)
  {
    var cs := Line(minSamples, n);
    LineAt(minSamples, n);
    LineRejected(minSamples, n, cs);
    NotAlways(minSamples, cs, QUARTER);
  }

  /** Grouping always succeeds exactly when `min_samples` is at most three. */
  lemma GroupingSucceedsIff(minSamples: nat)
    requires minSamples >= 1
    ensures AlwaysGroups(minSamples) <==> minSamples <= 3
  {
    if minSamples <= 3 {
      AlwaysUpToThree(minSamples);
    } else {
      FailsFromFour(minSamples, 2 * minSamples - 1);
    }
  }

  /** Whenever the call succeeds on an input whose ids identify its candidates, the result is a partition. */
  ghost predicate AlwaysPartitions(minSamples: nat) {
    forall cs, eps | eps >= 0.0 && SameIdSame(cs) && GroupsOf(cs, eps, minSamples).Grouped? ::
      Partitions(GroupsOf(cs, eps, minSamples).result, cs)
  }

  lemma PartitionsUpToThree(minSamples: nat)
    requires 1 <= minSamples <= 3
    ensures AlwaysPartitions(minSamples)
  {
    forall cs, eps | eps >= 0.0 && SameIdSame(cs) && GroupsOf(cs, eps, minSamples).Grouped?
      ensures Partitions(GroupsOf(cs, eps, minSamples).result, cs)
    {
      AtMostThreePartitions(cs, eps, minSamples);
    }
  }

  lemma OverlapsFromFour(minSamples: nat, cs: seq<Candidate>)
    requires minSamples >= 4 && cs == Line(minSamples, 2 * minSamples)
    ensures !AlwaysPartitions(minSamples)
  {
    OverlapAccepted(minSamples, 2 * minSamples, cs);
  }

  /** Success means a partition exactly when `min_samples` is at most three. */
  lemma PartitionIff(minSamples: nat)
    requires minSamples >= 1
    ensures AlwaysPartitions(minSamples) <==> minSamples <= 3
  {
    if minSamples <= 3 {
      PartitionsUpToThree(minSamples);
    } else {
      OverlapsFromFour(minSamples, Line(minSamples, 2 * minSamples));
    }
  }
}
