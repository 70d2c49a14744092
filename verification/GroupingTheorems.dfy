/** What the grouping guarantees: order independence, monotonicity, and when it partitions. */
module GroupingTheorems {
  import opened Ordering
  import opened FeatureDistance
  import opened Grouping

  ghost predicate IsSymmetric(near: Nearness) {
    && (forall c, d :: near(c, d) ==> near(d, c))
    && (forall c :: near(c, c))
  }

  lemma WithinSymmetric(eps: real)
    requires eps >= 0.0
    ensures IsSymmetric(Within(eps))
  {
    forall c: Candidate, d: Candidate
      ensures Within(eps)(c, d) ==> Within(eps)(d, c)
      ensures Within(eps)(c, c)
    {
      DistanceFacts(c.features, d.features);
      DistanceFacts(c.features, c.features);
      assert forall n | n in c.features :: SameValue(c.features[n], c.features[n]);
    }
  }

  /** Candidates that share an id are the same candidate. */
  ghost predicate SameIdSame(cs: seq<Candidate>) {
    forall c, d | c in cs && d in cs :: c.id == d.id ==> c == d
  }

  ghost predicate SymmetricGraph(g: Graph) {
    && WellFormed(g)
    && (forall x | x in g.nbrs :: x in g.nbrs[x])
    && (forall x, y | x in g.nbrs && y in g.nbrs[x] :: x in g.nbrs[y])
  }

  ghost predicate DenseCores(g: Graph, minSamples: int) {
    forall x | x in g.nbrs :: |g.nbrs[x]| >= minSamples <==> x in g.cores
  }

  lemma GraphSymmetric(cs: seq<Candidate>, near: Nearness, minSamples: int)
    requires SameIdSame(cs) && IsSymmetric(near)
    ensures SymmetricGraph(GraphOf(cs, near, minSamples))
    ensures DenseCores(GraphOf(cs, near, minSamples), minSamples)
  {
    GraphWellFormed(cs, near, minSamples);
    var g, byId := GraphOf(cs, near, minSamples), ById(cs);
    forall x | x in g.nbrs ensures x in g.nbrs[x] {
      ByIdFacts(cs, x);
      NearIdsMembers(byId[x], cs, near, x);
    }
    forall x, y | x in g.nbrs && y in g.nbrs[x] ensures x in g.nbrs[y] {
      ByIdFacts(cs, x);
      ByIdFacts(cs, y);
      NearIdsMembers(byId[x], cs, near, y);
      NearIdsMembers(byId[y], cs, near, x);
    }
  }

  // ----- clusters as reachable sets -----

  lemma {:induction false} UnionMember(sets: seq<set<Uuid>>, x: Uuid)
    ensures x in UnionOf(sets) <==> exists s :: s in sets && x in s
  {
    if sets == [] {
    } else {
      UnionMember(sets[1..], x);
      assert forall s :: s in sets <==> s == sets[0] || s in sets[1..];
    }
  }

  /** Each cluster is what one seed reaches, and no seed was taken before. */
  lemma {:induction false} ClusterIsReach(g: Graph, seeds: seq<Uuid>, taken: set<Uuid>, s: set<Uuid>)
    requires s in ClusterSets(g, seeds, taken)
    ensures exists c :: c in seeds && c !in taken && s == Reach(g, c)
  {
    if seeds == [] {
    } else if seeds[0] in taken {
      ClusterIsReach(g, seeds[1..], taken, s);
    } else if s == Reach(g, seeds[0]) {
    } else {
      ClusterIsReach(g, seeds[1..], taken + Reach(g, seeds[0]), s);
    }
  }

  lemma {:induction false} SeedCovered(g: Graph, seeds: seq<Uuid>, taken: set<Uuid>, c: Uuid)
    requires c in seeds && c in g.nbrs
    ensures c in taken || c in UnionOf(ClusterSets(g, seeds, taken))
  {
    ReachesSelf(g, c);
    if seeds[0] in taken {
      if c != seeds[0] {
        SeedCovered(g, seeds[1..], taken, c);
      }
    } else {
      var sets := ClusterSets(g, seeds, taken);
      assert sets[0] == Reach(g, seeds[0]) && sets[1..] == ClusterSets(g, seeds[1..], taken + Reach(g, seeds[0]));
      if c !in Reach(g, seeds[0]) {
        SeedCovered(g, seeds[1..], taken + Reach(g, seeds[0]), c);
      }
    }
  }

  lemma CoreInSomeCluster(g: Graph, c: Uuid)
    requires WellFormed(g) && c in g.cores
    ensures exists s :: s in Clusters(g) && c in s
  {
    SortedSetMembers(g.cores, c);
    SeedCovered(g, SortedSet(g.cores), {}, c);
    UnionMember(Clusters(g), c);
  }

  lemma ClusterHasSeed(g: Graph, s: set<Uuid>) returns (c: Uuid)
    requires s in Clusters(g)
    ensures c in g.cores && s == Reach(g, c)
  {
    ClusterIsReach(g, SortedSet(g.cores), {}, s);
    c :| c in SortedSet(g.cores) && s == Reach(g, c);
    SortedSetMembers(g.cores, c);
  }

  /** Whatever a core reaches lies in the cluster that holds the core. */
  lemma ReachedInCluster(g: Graph, c: Uuid, x: Uuid)
    requires WellFormed(g) && c in g.cores && x in g.nbrs && Reaches(g, c, x)
    ensures exists s :: s in Clusters(g) && c in s && x in s
  {
    CoreInSomeCluster(g, c);
    var s :| s in Clusters(g) && c in s;
    var seed := ClusterHasSeed(g, s);
    ReachesTrans(g, seed, c, x);
  }

  /** The grouped ids are exactly what the cores reach. */
  lemma GroupedIffReached(g: Graph, x: Uuid)
    requires WellFormed(g)
    ensures x in UnionOf(Clusters(g)) <==> x in g.nbrs && exists c :: c in g.cores && Reaches(g, c, x)
  {
    UnionMember(Clusters(g), x);
    if x in UnionOf(Clusters(g)) {
      var s :| s in Clusters(g) && x in s;
      var c := ClusterHasSeed(g, s);
    } else if x in g.nbrs && exists c :: c in g.cores && Reaches(g, c, x) {
      var c :| c in g.cores && Reaches(g, c, x);
      ReachedInCluster(g, c, x);
      assert false;
    }
  }

  lemma {:induction false} PathReversed(g: Graph, p: seq<Uuid>)
    requires SymmetricGraph(g) && IsPath(g, p) && p[|p| - 1] in g.cores
    ensures Reaches(g, p[|p| - 1], p[0])
    decreases |p|
  {
    if |p| == 1 {
      ReachesSelf(g, p[0]);
    } else {
      var front := p[..|p| - 1];
      PathReversed(g, front);
      var y, x := p[|p| - 2], p[|p| - 1];
      ReachesSelf(g, x);
      ReachesStep(g, x, x, y);
      ReachesTrans(g, x, y, p[0]);
    }
  }

  /** A node that a core reaches is a core, or hangs off a reached core next to it. */
  lemma LastCore(g: Graph, s: Uuid, x: Uuid) returns (y: Uuid)
    requires SymmetricGraph(g) && s in g.cores && x in g.nbrs && Reaches(g, s, x)
    ensures y in g.cores && Reaches(g, s, y) && y in g.nbrs[x]
    ensures x in g.cores ==> y == x
  {
    if x in g.cores {
      y := x;
    } else {
      var p :| PathBetween(g, p, s, x);
      y := p[|p| - 2];
      assert PathBetween(g, p[..|p| - 1], s, y);
    }
  }

  /** Outliers are exactly the candidates without a core neighbour. */
  lemma OutlierIffNoCoreNear(g: Graph, x: Uuid)
    requires SymmetricGraph(g) && x in g.nbrs
    ensures x !in UnionOf(Clusters(g)) <==> forall y | y in g.nbrs[x] :: y !in g.cores
  {
    GroupedIffReached(g, x);
    if x in UnionOf(Clusters(g)) {
      var c :| c in g.cores && Reaches(g, c, x);
      var y := LastCore(g, c, x);
    } else {
      forall y | y in g.nbrs[x] ensures y !in g.cores {
        if y in g.cores {
          ReachesSelf(g, y);
          ReachesStep(g, y, y, x);
        }
      }
    }
  }

  lemma {:induction false} LaterSeedOutside(g: Graph, seeds: seq<Uuid>, taken: set<Uuid>, i: nat, j: nat)
    returns (t: Uuid)
    requires i < j < |ClusterSets(g, seeds, taken)|
    ensures t in seeds && ClusterSets(g, seeds, taken)[j] == Reach(g, t)
    ensures t !in ClusterSets(g, seeds, taken)[i]
  {
    var sets := ClusterSets(g, seeds, taken);
    if seeds[0] in taken {
      t := LaterSeedOutside(g, seeds[1..], taken, i, j);
    } else {
      var taken' := taken + Reach(g, seeds[0]);
      assert sets[1..] == ClusterSets(g, seeds[1..], taken');
      if i == 0 {
        assert sets[j] == sets[1..][j - 1];
        ClusterIsReach(g, seeds[1..], taken', sets[j]);
        t :| t in seeds[1..] && t !in taken' && sets[j] == Reach(g, t);
      } else {
        t := LaterSeedOutside(g, seeds[1..], taken', i - 1, j - 1);
      }
    }
  }

  /** Two groups never share a core. */
  lemma CoresNotShared(g: Graph, i: nat, j: nat, x: Uuid)
    requires SymmetricGraph(g) && i < j < |Clusters(g)|
    requires x in Clusters(g)[i] && x in Clusters(g)[j]
    ensures x !in g.cores
  {
    if x in g.cores {
      var s := ClusterHasSeed(g, Clusters(g)[i]);
      var t := LaterSeedOutside(g, SortedSet(g.cores), {}, i, j);
      SortedSetMembers(g.cores, t);
      var p :| PathBetween(g, p, t, x);
      PathReversed(g, p);
      ReachesTrans(g, s, x, t);
    }
  }

  lemma ThreeInSequence(s: seq<Uuid>, a: Uuid, b: Uuid, c: Uuid)
    requires a in s && b in s && c in s && a != b && b != c && a != c
    ensures |s| >= 3
  {
    var i, j, k :| 0 <= i < |s| && 0 <= j < |s| && 0 <= k < |s| && s[i] == a && s[j] == b && s[k] == c;
  }

  /** With `min_samples` at most three, a node next to two groups is itself dense: groups are disjoint. */
  lemma GroupsDisjoint(g: Graph, minSamples: int, i: nat, j: nat, x: Uuid)
    requires SymmetricGraph(g) && DenseCores(g, minSamples) && minSamples <= 3
    requires i < j < |Clusters(g)| && x in Clusters(g)[i]
    ensures x !in Clusters(g)[j]
  {
    if x in Clusters(g)[j] {
      CoresNotShared(g, i, j, x);
      var s := ClusterHasSeed(g, Clusters(g)[i]);
      var t := ClusterHasSeed(g, Clusters(g)[j]);
      var y := LastCore(g, s, x);
      var z := LastCore(g, t, x);
      if y == z {
        CoresNotShared(g, i, j, y);
      }
      ThreeInSequence(g.nbrs[x], x, y, z);
    }
  }

  /** With `min_samples` at most two every grouped candidate is a core: there are no border points. */
  lemma NoBorder(g: Graph, minSamples: int, s: set<Uuid>, x: Uuid)
    requires SymmetricGraph(g) && DenseCores(g, minSamples) && minSamples <= 2
    requires s in Clusters(g) && x in s
    ensures x in g.cores
  {
    var c := ClusterHasSeed(g, s);
    var y := LastCore(g, c, x);
    if x != y {
      var i, j :| 0 <= i < |g.nbrs[x]| && 0 <= j < |g.nbrs[x]| && g.nbrs[x][i] == x && g.nbrs[x][j] == y;
    }
  }

  // ----- groups as components of the epsilon graph -----

  ghost predicate Linked(g: Graph, p: seq<Uuid>) {
    p != [] && p[0] in g.nbrs && forall i | 0 <= i < |p| - 1 :: p[i] in g.nbrs && p[i + 1] in g.nbrs[p[i]]
  }

  ghost predicate LinkedBetween(g: Graph, p: seq<Uuid>, x: Uuid, y: Uuid) {
    Linked(g, p) && p[0] == x && p[|p| - 1] == y
  }

  /** Connected in the graph whose edges join candidates within epsilon. */
  ghost predicate Connected(g: Graph, x: Uuid, y: Uuid) { exists p :: LinkedBetween(g, p, x, y) }

  lemma TwoNeighboursDense(g: Graph, minSamples: int, x: Uuid, y: Uuid)
    requires SymmetricGraph(g) && DenseCores(g, minSamples) && minSamples <= 2
    requires x in g.nbrs && y in g.nbrs[x] && x != y
    ensures x in g.cores && y in g.cores
  {
    var i, j :| 0 <= i < |g.nbrs[x]| && 0 <= j < |g.nbrs[x]| && g.nbrs[x][i] == x && g.nbrs[x][j] == y;
    var k, l :| 0 <= k < |g.nbrs[y]| && 0 <= l < |g.nbrs[y]| && g.nbrs[y][k] == x && g.nbrs[y][l] == y;
  }

  lemma {:induction false} LinkedIsReached(g: Graph, minSamples: int, p: seq<Uuid>)
    requires SymmetricGraph(g) && DenseCores(g, minSamples) && minSamples <= 2 && Linked(g, p)
    ensures p[|p| - 1] in g.nbrs && Reaches(g, p[0], p[|p| - 1])
    ensures p[0] != p[|p| - 1] ==> p[0] in g.cores && p[|p| - 1] in g.cores
    decreases |p|
  {
    if |p| == 1 {
      ReachesSelf(g, p[0]);
    } else {
      LinkedIsReached(g, minSamples, p[..|p| - 1]);
      var y, x := p[|p| - 2], p[|p| - 1];
      if x != y {
        TwoNeighboursDense(g, minSamples, y, x);
        ReachesStep(g, p[0], y, x);
      }
    }
  }

  lemma {:induction false} LinkedReversed(g: Graph, p: seq<Uuid>)
    requires SymmetricGraph(g) && Linked(g, p)
    ensures Connected(g, p[|p| - 1], p[0])
    decreases |p|
  {
    if |p| == 1 {
      assert LinkedBetween(g, p, p[0], p[0]);
    } else {
      LinkedReversed(g, p[..|p| - 1]);
      var y, x := p[|p| - 2], p[|p| - 1];
      var q :| LinkedBetween(g, q, y, p[0]);
      assert LinkedBetween(g, [x] + q, x, p[0]);
    }
  }

  lemma PathIsLinked(g: Graph, x: Uuid, y: Uuid)
    requires Reaches(g, x, y) && x in g.nbrs
    ensures Connected(g, x, y)
  {
    var p :| PathBetween(g, p, x, y);
    assert LinkedBetween(g, p, x, y);
  }

  lemma ConnectedTrans(g: Graph, x: Uuid, y: Uuid, z: Uuid)
    requires Connected(g, x, y) && Connected(g, y, z)
    ensures Connected(g, x, z)
  {
    var p :| LinkedBetween(g, p, x, y);
    var q :| LinkedBetween(g, q, y, z);
    var r := p + q[1..];
    forall i | 0 <= i < |r| - 1 ensures r[i] in g.nbrs && r[i + 1] in g.nbrs[r[i]] {
      if i < |p| - 1 {
      } else {
        assert r[i] == q[i - (|p| - 1)] && r[i + 1] == q[i + 1 - (|p| - 1)];
      }
    }
    assert LinkedBetween(g, r, x, z);
  }

  /** With `min_samples` at most two, two candidates share a group exactly when they are connected. */
  lemma GroupsAreComponents(g: Graph, minSamples: int, x: Uuid, y: Uuid)
    requires SymmetricGraph(g) && DenseCores(g, minSamples) && minSamples <= 2
    requires x in g.nbrs && y in g.nbrs && x != y
    ensures (exists s :: s in Clusters(g) && x in s && y in s) <==> Connected(g, x, y)
  {
    if exists s :: s in Clusters(g) && x in s && y in s {
      var s :| s in Clusters(g) && x in s && y in s;
      var c := ClusterHasSeed(g, s);
      PathIsLinked(g, c, x);
      PathIsLinked(g, c, y);
      var p :| LinkedBetween(g, p, c, x);
      LinkedReversed(g, p);
      ConnectedTrans(g, x, c, y);
    }
    if Connected(g, x, y) {
      var p :| LinkedBetween(g, p, x, y);
      LinkedIsReached(g, minSamples, p);
      ReachedInCluster(g, x, y);
    }
  }

  // ----- raising epsilon only merges -----

  ghost predicate SubGraph(g: Graph, h: Graph) {
    && g.nbrs.Keys == h.nbrs.Keys
    && g.cores <= h.cores
    && forall x, y | x in g.nbrs && y in g.nbrs[x] :: y in h.nbrs[x]
  }

  lemma ClusterMerges(g: Graph, h: Graph, s: set<Uuid>)
    requires WellFormed(g) && WellFormed(h) && SubGraph(g, h) && s in Clusters(g)
    ensures exists t :: t in Clusters(h) && s <= t
  {
    var c := ClusterHasSeed(g, s);
    CoreInSomeCluster(h, c);
    var t :| t in Clusters(h) && c in t;
    var d := ClusterHasSeed(h, t);
    forall x | x in s ensures x in t {
      var p :| PathBetween(g, p, c, x);
      assert PathBetween(h, p, c, x);
      ReachesTrans(h, d, c, x);
    }
  }

  lemma {:induction false} NearIdsGrow(c: Candidate, cs: seq<Candidate>, near: Nearness, far: Nearness)
    requires forall d, e :: near(d, e) ==> far(d, e)
    ensures |NearIds(c, cs, near)| <= |NearIds(c, cs, far)|
  {
    if cs == [] {
    } else {
      NearIdsGrow(c, cs[..|cs| - 1], near, far);
    }
  }

  lemma GraphGrows(cs: seq<Candidate>, near: Nearness, far: Nearness, minSamples: int)
    requires forall d, e :: near(d, e) ==> far(d, e)
    ensures SubGraph(GraphOf(cs, near, minSamples), GraphOf(cs, far, minSamples))
  {
    var g, h := GraphOf(cs, near, minSamples), GraphOf(cs, far, minSamples);
    forall x | x in g.nbrs ensures |g.nbrs[x]| <= |h.nbrs[x]| {
      NearIdsGrow(ById(cs)[x], cs, near, far);
    }
    forall x, y | x in g.nbrs && y in g.nbrs[x] ensures y in h.nbrs[x] {
      NearIdsMembers(ById(cs)[x], cs, near, y);
      NearIdsMembers(ById(cs)[x], cs, far, y);
    }
  }

  // ----- from member sets to the returned groups -----

  ghost function IdsOf(group: seq<Candidate>): set<Uuid> { set c | c in group :: c.id }

  lemma {:induction false} PickAllFacts(byId: map<Uuid, Candidate>, ids: seq<Uuid>, c: Candidate)
    requires forall x | x in ids :: x in byId
    ensures |PickAll(byId, ids)| == |ids|
    ensures c in PickAll(byId, ids) <==> exists x :: x in ids && c == byId[x]
  {
    if ids == [] {
    } else {
      PickAllFacts(byId, ids[1..], c);
      assert forall x :: x in ids <==> x == ids[0] || x in ids[1..];
    }
  }

  ghost predicate KeyedById(byId: map<Uuid, Candidate>) { forall x | x in byId :: byId[x].id == x }

  lemma PickSortedFacts(byId: map<Uuid, Candidate>, s: set<Uuid>)
    requires s <= byId.Keys && KeyedById(byId)
    ensures |PickSorted(byId, s)| == |s| && IdsOf(PickSorted(byId, s)) == s
    ensures forall c :: c in PickSorted(byId, s) <==> c.id in s && c == byId[c.id]
  {
    SortedSetIncreasing(s);
    var group := PickSorted(byId, s);
    forall x ensures x in SortedSet(s) <==> x in s { SortedSetMembers(s, x); }
    forall c ensures c in group <==> c.id in s && c == byId[c.id] {
      PickAllFacts(byId, SortedSet(s), c);
    }
    PickAllFacts(byId, SortedSet(s), Candidate(0, 0, map[]));
    forall x | x in s ensures x in IdsOf(group) {
      assert byId[x] in group;
    }
  }

  lemma {:induction false} PickGroupsMember(byId: map<Uuid, Candidate>, sets: seq<set<Uuid>>, group: seq<Candidate>)
    requires forall s | s in sets :: s <= byId.Keys
    ensures group in PickGroups(byId, sets) <==> exists s :: s in sets && group == PickSorted(byId, s)
  {
    if sets == [] {
    } else {
      PickGroupsMember(byId, sets[1..], group);
      assert forall s :: s in sets <==> s == sets[0] || s in sets[1..];
    }
  }

  lemma {:induction false} UnassignedMember(cs: seq<Candidate>, taken: set<Uuid>, c: Candidate)
    ensures c in Unassigned(cs, taken) <==> c in cs && c.id !in taken
  {
    if cs == [] {
    } else {
      UnassignedMember(cs[1..], taken, c);
      assert forall d :: d in cs <==> d == cs[0] || d in cs[1..];
    }
  }

  lemma ByIdKeyed(cs: seq<Candidate>)
    ensures KeyedById(ById(cs))
  {
    forall x | x in ById(cs) ensures ById(cs)[x].id == x { ByIdFacts(cs, x); }
  }

  /** The returned groups are the clusters, and the outliers are the candidates of no cluster. */
  lemma SplitFacts(cs: seq<Candidate>, near: Nearness, minSamples: int)
    ensures var g, (groups, outliers) := GraphOf(cs, near, minSamples), Split(cs, near, minSamples);
            && (forall group | group in groups :: IdsOf(group) in Clusters(g) && |group| == |IdsOf(group)|)
            && (forall s | s in Clusters(g) :: s <= ById(cs).Keys && PickSorted(ById(cs), s) in groups)
            && (forall group, c | group in groups && c in group :: c.id in ById(cs) && c == ById(cs)[c.id])
            && (forall c :: c in outliers <==> c in cs && c.id !in UnionOf(Clusters(g)))
  {
    var g, byId := GraphOf(cs, near, minSamples), ById(cs);
    var (groups, outliers) := Split(cs, near, minSamples);
    GraphWellFormed(cs, near, minSamples);
    ClusterSetsWithin(g, SortedSet(g.cores), {});
    ByIdKeyed(cs);
    var picked := PickGroups(byId, Clusters(g));
    StableSortSorts(FirstId, picked);
    forall group ensures group in groups <==> group in picked {
      assert group in multiset(groups) <==> group in multiset(picked);
    }
    forall group | group in groups
      ensures IdsOf(group) in Clusters(g) && |group| == |IdsOf(group)|
      ensures forall c | c in group :: c.id in byId && c == byId[c.id]
    {
      PickGroupsMember(byId, Clusters(g), group);
      var s :| s in Clusters(g) && group == PickSorted(byId, s);
      PickSortedFacts(byId, s);
    }
    forall s | s in Clusters(g) ensures PickSorted(byId, s) in groups {
      PickGroupsMember(byId, Clusters(g), PickSorted(byId, s));
    }
    forall c ensures c in outliers <==> c in cs && c.id !in UnionOf(Clusters(g)) {
      UnassignedMember(cs, UnionOf(Clusters(g)), c);
    }
  }
}
