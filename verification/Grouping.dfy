/** Density-based grouping of failure candidates: the specification and the algorithm. */
module Grouping {
  import opened Ordering
  import opened FeatureDistance

  datatype Candidate = Candidate(id: Uuid, evidenceId: Uuid, features: Features)

  datatype Metrics = Metrics(candidates: nat, grouped: nat, outliers: nat, groups: nat, coverage: real)

  datatype Result = Result(groups: seq<seq<Candidate>>, outliers: seq<Candidate>, metrics: Metrics)

  datatype GroupingError = NegativeEpsilon | NonPositiveMinSamples | CoverageOutOfRange

  datatype Outcome = Grouped(result: Result) | Rejected(error: GroupingError)

  function IdOf(c: Candidate): nat { c.id }

  function FirstId(group: seq<Candidate>): nat { if group == [] then 0 else group[0].id }

  // ----- the neighbour graph -----

  /** `cores` are the ids dense enough to expand; `nbrs[x]` lists the ids near `x`. */
  datatype Graph = Graph(nbrs: map<Uuid, seq<Uuid>>, cores: set<Uuid>)

  ghost predicate WellFormed(g: Graph) {
    && g.cores <= g.nbrs.Keys
    && forall x, y | x in g.nbrs && y in g.nbrs[x] :: y in g.nbrs
  }

  /** The dictionary from id to candidate: a later candidate replaces an earlier one. */
  function ById(cs: seq<Candidate>): map<Uuid, Candidate> {
    if cs == [] then map[] else ById(cs[..|cs| - 1])[cs[|cs| - 1].id := cs[|cs| - 1]]
  }

  type Nearness = (Candidate, Candidate) -> bool

  ghost function Within(eps: real): Nearness {
    (c: Candidate, d: Candidate) => Distance(c.features, d.features) <= eps
  }

  /** The ids of the candidates near `c`, in order, repeats included. */
  ghost function NearIds(c: Candidate, cs: seq<Candidate>, near: Nearness): seq<Uuid> {
    if cs == [] then []
    else
      var last := cs[|cs| - 1];
      NearIds(c, cs[..|cs| - 1], near) + (if near(c, last) then [last.id] else [])
  }

  ghost function Neighbours(cs: seq<Candidate>, all: seq<Candidate>, near: Nearness): map<Uuid, seq<Uuid>> {
    map id | id in ById(cs) :: NearIds(ById(cs)[id], all, near)
  }

  function Cores(nbrs: map<Uuid, seq<Uuid>>, minSamples: int): set<Uuid> {
    set id | id in nbrs && |nbrs[id]| >= minSamples
  }

  ghost function GraphOf(ordered: seq<Candidate>, near: Nearness, minSamples: int): Graph {
    var nbrs := Neighbours(ordered, ordered, near);
    Graph(nbrs, Cores(nbrs, minSamples))
  }

  // ----- reachability -----

  /** A walk every node of which, except possibly the last, is a core. */
  ghost predicate IsPath(g: Graph, p: seq<Uuid>) {
    && p != []
    && forall i | 0 <= i < |p| - 1 :: p[i] in g.cores && p[i] in g.nbrs && p[i + 1] in g.nbrs[p[i]]
  }

  ghost predicate PathBetween(g: Graph, p: seq<Uuid>, s: Uuid, t: Uuid) {
    IsPath(g, p) && p[0] == s && p[|p| - 1] == t
  }

  ghost predicate Reaches(g: Graph, s: Uuid, t: Uuid) { exists p :: PathBetween(g, p, s, t) }

  ghost function Reach(g: Graph, s: Uuid): set<Uuid> { set t | t in g.nbrs && Reaches(g, s, t) }

  lemma ReachesSelf(g: Graph, s: Uuid)
    ensures Reaches(g, s, s)
  {
    assert PathBetween(g, [s], s, s);
  }

  lemma ReachesStep(g: Graph, s: Uuid, t: Uuid, u: Uuid)
    requires Reaches(g, s, t) && t in g.cores && t in g.nbrs && u in g.nbrs[t]
    ensures Reaches(g, s, u)
  {
    var p :| PathBetween(g, p, s, t);
    assert PathBetween(g, p + [u], s, u);
  }

  lemma {:induction false} ReachesTrans(g: Graph, s: Uuid, t: Uuid, u: Uuid)
    requires Reaches(g, s, t) && Reaches(g, t, u)
    ensures Reaches(g, s, u)
  {
    var q :| PathBetween(g, q, t, u);
    AppendPath(g, s, q);
  }

  lemma {:induction false} AppendPath(g: Graph, s: Uuid, q: seq<Uuid>)
    requires IsPath(g, q) && Reaches(g, s, q[0])
    ensures Reaches(g, s, q[|q| - 1])
    decreases |q|
  {
    if |q| == 1 {
    } else {
      var q' := q[..|q| - 1];
      AppendPath(g, s, q');
      ReachesStep(g, s, q[|q| - 2], q[|q| - 1]);
    }
  }

  /** A set that is closed under expansion of its cores contains every path from it. */
  lemma {:induction false} ClosedContainsPath(g: Graph, members: set<Uuid>, p: seq<Uuid>)
    requires IsPath(g, p) && p[0] in members
    requires forall m, x | m in members && m in g.cores && m in g.nbrs && x in g.nbrs[m] :: x in members
    ensures p[|p| - 1] in members
    decreases |p|
  {
    if |p| == 1 {
    } else {
      ClosedContainsPath(g, members, p[..|p| - 1]);
      assert p[|p| - 2] in members && p[|p| - 1] in g.nbrs[p[|p| - 2]];
    }
  }

  lemma ClosedIsReach(g: Graph, seed: Uuid, members: set<Uuid>)
    requires WellFormed(g) && seed in members
    requires forall m | m in members :: m in g.nbrs && Reaches(g, seed, m)
    requires forall m, x | m in members && m in g.cores && m in g.nbrs && x in g.nbrs[m] :: x in members
    ensures members == Reach(g, seed)
  {
    forall t | t in Reach(g, seed) ensures t in members {
      var p :| PathBetween(g, p, seed, t);
      ClosedContainsPath(g, members, p);
    }
  }

  // ----- the groups -----

  /** The member sets found by expanding the seeds in order, skipping the seeds already assigned. */
  ghost function ClusterSets(g: Graph, seeds: seq<Uuid>, taken: set<Uuid>): seq<set<Uuid>> {
    if seeds == [] then []
    else if seeds[0] in taken then ClusterSets(g, seeds[1..], taken)
    else [Reach(g, seeds[0])] + ClusterSets(g, seeds[1..], taken + Reach(g, seeds[0]))
  }

  ghost function Clusters(g: Graph): seq<set<Uuid>> { ClusterSets(g, SortedSet(g.cores), {}) }

  ghost function UnionOf(sets: seq<set<Uuid>>): set<Uuid> {
    if sets == [] then {} else sets[0] + UnionOf(sets[1..])
  }

  function PickAll(byId: map<Uuid, Candidate>, ids: seq<Uuid>): seq<Candidate>
    requires forall x | x in ids :: x in byId
  {
    if ids == [] then [] else [byId[ids[0]]] + PickAll(byId, ids[1..])
  }

  ghost function PickGroups(byId: map<Uuid, Candidate>, sets: seq<set<Uuid>>): seq<seq<Candidate>>
    requires forall s | s in sets :: s <= byId.Keys
  {
    if sets == [] then []
    else
      [PickSorted(byId, sets[0])] + PickGroups(byId, sets[1..])
  }

  ghost function PickSorted(byId: map<Uuid, Candidate>, s: set<Uuid>): seq<Candidate>
    requires s <= byId.Keys
  {
    assert forall x | x in SortedSet(s) :: x in byId by {
      forall x | x in SortedSet(s) ensures x in byId { SortedSetMembers(s, x); }
    }
    PickAll(byId, SortedSet(s))
  }

  function Unassigned(cs: seq<Candidate>, taken: set<Uuid>): seq<Candidate> {
    if cs == [] then []
    else (if cs[0].id in taken then [] else [cs[0]]) + Unassigned(cs[1..], taken)
  }

  function TotalSize(groups: seq<seq<Candidate>>): nat {
    if groups == [] then 0 else |groups[0]| + TotalSize(groups[1..])
  }

  function Coverage(grouped: nat, candidates: nat): real {
    if candidates == 0 then 0.0 else grouped as real / candidates as real
  }

  /** Packs groups and outliers; the metrics schema rejects a coverage above one. */
  function Assemble(groups: seq<seq<Candidate>>, outliers: seq<Candidate>, candidates: nat): Outcome {
    var grouped := TotalSize(groups);
    var coverage := Coverage(grouped, candidates);
    if 0.0 <= coverage <= 1.0 then
      Grouped(Result(groups, outliers, Metrics(candidates, grouped, |outliers|, |groups|, coverage)))
    else
      Rejected(CoverageOutOfRange)
  }

  /** The whole result as a function of the candidates in id order. */
  ghost function Expected(ordered: seq<Candidate>, eps: real, minSamples: int): Outcome {
    if eps < 0.0 then Rejected(NegativeEpsilon)
    else if minSamples < 1 then Rejected(NonPositiveMinSamples)
    else
      var (groups, outliers) := Split(ordered, Within(eps), minSamples);
      Assemble(groups, outliers, |ordered|)
  }

  /** Groups and outliers before the metrics are validated. */
  ghost function Split(ordered: seq<Candidate>, near: Nearness, minSamples: int)
    : (seq<seq<Candidate>>, seq<Candidate>)
  {
    var g := GraphOf(ordered, near, minSamples);
    var sets := Clusters(g);
    GraphWellFormed(ordered, near, minSamples);
    ClusterSetsWithin(g, SortedSet(g.cores), {});
    (StableSort(FirstId, PickGroups(ById(ordered), sets)), Unassigned(ordered, UnionOf(sets)))
  }

  ghost function GroupsOf(candidates: seq<Candidate>, eps: real, minSamples: int): Outcome {
    Expected(StableSort(IdOf, candidates), eps, minSamples)
  }

  // ----- facts the algorithm needs -----

  lemma {:induction false} NearIdsMembers(c: Candidate, cs: seq<Candidate>, near: Nearness, x: Uuid)
    ensures x in NearIds(c, cs, near) <==> exists d :: d in cs && d.id == x && near(c, d)
  {
    if cs == [] {
    } else {
      var front, last := cs[..|cs| - 1], cs[|cs| - 1];
      NearIdsMembers(c, front, near, x);
      assert cs == front + [last];
      assert forall d :: d in cs <==> d in front || d == last;
    }
  }

  lemma {:induction false} ByIdFacts(cs: seq<Candidate>, x: Uuid)
    ensures x in ById(cs) <==> exists d :: d in cs && d.id == x
    ensures x in ById(cs) ==> ById(cs)[x] in cs && ById(cs)[x].id == x
  {
    if cs == [] {
    } else {
      var front, last := cs[..|cs| - 1], cs[|cs| - 1];
      ByIdFacts(front, x);
      assert cs == front + [last];
      assert forall d :: d in cs <==> d in front || d == last;
    }
  }

  lemma GraphWellFormed(ordered: seq<Candidate>, near: Nearness, minSamples: int)
    ensures WellFormed(GraphOf(ordered, near, minSamples))
    ensures GraphOf(ordered, near, minSamples).nbrs.Keys == ById(ordered).Keys
  {
    var g := GraphOf(ordered, near, minSamples);
    forall x, y | x in g.nbrs && y in g.nbrs[x] ensures y in g.nbrs {
      NearIdsMembers(ById(ordered)[x], ordered, near, y);
      ByIdFacts(ordered, y);
    }
  }

  lemma {:induction false} ClusterSetsWithin(g: Graph, seeds: seq<Uuid>, taken: set<Uuid>)
    ensures forall s | s in ClusterSets(g, seeds, taken) :: s <= g.nbrs.Keys
  {
    if seeds == [] {
    } else if seeds[0] in taken {
      ClusterSetsWithin(g, seeds[1..], taken);
    } else {
      ClusterSetsWithin(g, seeds[1..], taken + Reach(g, seeds[0]));
    }
  }

  lemma {:induction false} UnionSnoc(sets: seq<set<Uuid>>, s: set<Uuid>)
    ensures UnionOf(sets + [s]) == UnionOf(sets) + s
  {
    if sets == [] {
      assert [s][1..] == [];
    } else {
      UnionSnoc(sets[1..], s);
      assert (sets + [s])[1..] == sets[1..] + [s];
    }
  }

  lemma {:induction false} PickGroupsSnoc(byId: map<Uuid, Candidate>, sets: seq<set<Uuid>>, s: set<Uuid>)
    requires s <= byId.Keys && forall t | t in sets :: t <= byId.Keys
    ensures PickGroups(byId, sets + [s]) == PickGroups(byId, sets) + [PickSorted(byId, s)]
  {
    if sets == [] {
      assert [s][1..] == [];
    } else {
      PickGroupsSnoc(byId, sets[1..], s);
      assert (sets + [s])[1..] == sets[1..] + [s];
    }
  }

  // ----- the algorithm -----

  /** The ids near one candidate, by measuring every other. */
  method MeasureNear(c: Candidate, ordered: seq<Candidate>, eps: real, ghost near: Nearness)
    returns (ids: seq<Uuid>)
    requires forall d :: near(c, d) <==> Distance(c.features, d.features) <= eps
    ensures ids == NearIds(c, ordered, near)
  {
    ids := [];
    for j := 0 to |ordered|
      invariant ids == NearIds(c, ordered[..j], near)
    {
      var other := ordered[j];
      var d := MeasureDistance(c.features, other.features);
      var isNear := d <= eps;
      assert isNear == near(c, other);
      assert ordered[..j + 1][..j] == ordered[..j];
      if isNear {
        ids := ids + [other.id];
      }
    }
    assert ordered[..|ordered|] == ordered;
  }

  /** The ids near each candidate. */
  method MeasureNeighbours(ordered: seq<Candidate>, eps: real, ghost near: Nearness)
    returns (nbrs: map<Uuid, seq<Uuid>>)
    requires near == Within(eps)
    ensures nbrs == Neighbours(ordered, ordered, near)
  {
    nbrs := map[];
    for i := 0 to |ordered|
      invariant nbrs == Neighbours(ordered[..i], ordered, near)
    {
      var c := ordered[i];
      var ids := MeasureNear(c, ordered, eps, near);
      assert ordered[..i + 1][..i] == ordered[..i];
      nbrs := nbrs[c.id := ids];
    }
    assert ordered[..|ordered|] == ordered;
  }

  /** The worklist search: expands cores until nothing is pending. */
  method Search(g: Graph, seed: Uuid) returns (members: set<Uuid>)
    requires WellFormed(g) && seed in g.nbrs
    ensures members == Reach(g, seed)
  {
    var pending := [seed];
    members := {};
    ReachesSelf(g, seed);
    while pending != []
      invariant seed in members || seed in pending
      invariant forall x | x in pending :: x in g.nbrs && Reaches(g, seed, x)
      invariant forall x | x in members :: x in g.nbrs && Reaches(g, seed, x)
      invariant forall m, x | m in members && m in g.cores && m in g.nbrs && x in g.nbrs[m] ::
                  x in members || x in pending
      decreases g.nbrs.Keys - members, |pending|
    {
      var current, before := pending[0], pending;
      pending := pending[1..];
      assert forall x | x in before :: x == current || x in pending;
      if current !in members {
        members := members + {current};
        if current in g.cores {
          forall x | x in g.nbrs[current] ensures Reaches(g, seed, x) {
            ReachesStep(g, seed, current, x);
          }
          SortKeepsMembers(g.nbrs[current]);
          pending := pending + StableSort(SelfKey, g.nbrs[current]);
        }
      }
    }
    ClosedIsReach(g, seed, members);
  }

  function SelfKey(x: Uuid): nat { x }

  lemma SortKeepsMembers(s: seq<Uuid>)
    ensures forall x :: x in StableSort(SelfKey, s) <==> x in s
  {
    StableSortSorts(SelfKey, s);
    forall x ensures x in StableSort(SelfKey, s) <==> x in s {
      assert x in multiset(StableSort(SelfKey, s)) <==> x in multiset(s);
    }
  }

  /** The candidates of a member set, in id order. */
  method PickMembers(byId: map<Uuid, Candidate>, members: set<Uuid>) returns (group: seq<Candidate>)
    requires members <= byId.Keys
    ensures group == PickSorted(byId, members)
  {
    forall x | x in SortedSet(members) ensures x in byId { SortedSetMembers(members, x); }
    group := PickAll(byId, SortedSet(members));
  }

  /** One seed: skipped when assigned, expanded otherwise. */
  lemma ClusterStep(g: Graph, seeds: seq<Uuid>, i: nat, sets: seq<set<Uuid>>, taken: set<Uuid>)
    requires i < |seeds|
    ensures var members := Reach(g, seeds[i]);
            sets + ClusterSets(g, seeds[i..], taken)
            == if seeds[i] in taken then sets + ClusterSets(g, seeds[i + 1..], taken)
               else (sets + [members]) + ClusterSets(g, seeds[i + 1..], taken + members)
  {
    assert seeds[i..][0] == seeds[i] && seeds[i..][1..] == seeds[i + 1..];
    var members := Reach(g, seeds[i]);
    Assoc(sets, [members], ClusterSets(g, seeds[i + 1..], taken + members));
  }

  /** Expands the unassigned cores in id order. */
  method CollectClusters(g: Graph, byId: map<Uuid, Candidate>)
    returns (clusters: seq<seq<Candidate>>, taken: set<Uuid>)
    requires WellFormed(g) && g.nbrs.Keys == byId.Keys
    ensures (forall s | s in Clusters(g) :: s <= byId.Keys)
    ensures clusters == PickGroups(byId, Clusters(g)) && taken == UnionOf(Clusters(g))
  {
    var seeds := SortedSet(g.cores);
    clusters, taken := [], {};
    ghost var sets: seq<set<Uuid>> := [];
    ClusterSetsWithin(g, seeds, {});
    for i := 0 to |seeds|
      invariant taken == UnionOf(sets)
      invariant Clusters(g) == sets + ClusterSets(g, seeds[i..], taken)
      invariant forall s | s in sets :: s <= byId.Keys
      invariant clusters == PickGroups(byId, sets)
    {
      var seed := seeds[i];
      SortedSetMembers(g.cores, seed);
      ClusterStep(g, seeds, i, sets, taken);
      if seed !in taken {
        var members := Search(g, seed);
        UnionSnoc(sets, members);
        PickGroupsSnoc(byId, sets, members);
        sets := sets + [members];
        taken := taken + members;
        var group := PickMembers(byId, members);
        clusters := clusters + [group];
      }
    }
    assert sets + [] == sets;
  }

  /** Groups the candidates: the result is a function of the candidates in id order. */
  method GroupCandidates(candidates: seq<Candidate>, eps: real, minSamples: int) returns (outcome: Outcome)
    ensures outcome == GroupsOf(candidates, eps, minSamples)
  {
    if eps < 0.0 {
      return Rejected(NegativeEpsilon);
    }
    if minSamples < 1 {
      return Rejected(NonPositiveMinSamples);
    }
    var ordered := StableSort(IdOf, candidates);
    ghost var near := Within(eps);
    var nbrs := MeasureNeighbours(ordered, eps, near);
    var g := Graph(nbrs, Cores(nbrs, minSamples));
    GraphWellFormed(ordered, near, minSamples);
    var clusters, taken := CollectClusters(g, ById(ordered));
    outcome := Assemble(StableSort(FirstId, clusters), Unassigned(ordered, taken), |ordered|);
  }

  /** The features on which every member agrees with the first member. */
  method SharedFeatures(group: seq<Candidate>) returns (shared: Features)
    requires group != []
    ensures forall n :: n in shared <==>
              n in group[0].features
              && forall c | c in group :: n in c.features && SameValue(c.features[n], group[0].features[n])
    ensures forall n | n in shared :: shared[n] == group[0].features[n]
  {
    shared := group[0].features;
    for i := 1 to |group|
      invariant forall n :: n in shared <==>
                  n in group[0].features
                  && forall j | 0 <= j < i ::
                       n in group[j].features && SameValue(group[j].features[n], group[0].features[n])
      invariant forall n | n in shared :: shared[n] == group[0].features[n]
    {
      var c := group[i].features;
      shared := map n | n in shared && n in c && SameValue(c[n], shared[n]) :: shared[n];
    }
  }
}
