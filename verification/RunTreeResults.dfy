/** What the assembled forest holds, and that each of its trees passes the later tree checks. */
module RunTreeResults {
  import opened Ordering
  import opened RunTree
  import opened EventTree

  function IdOf(r: Run): string { if r.id.Some? then r.id.value else "" }

  function IdsOf(rs: seq<Run>): seq<string> {
    if rs == [] then [] else [IdOf(rs[0])] + IdsOf(rs[1..])
  }

  lemma {:induction false} IdsConcat(a: seq<Run>, b: seq<Run>)
    ensures IdsOf(a + b) == IdsOf(a) + IdsOf(b)
  {
    if a == [] {
      assert a + b == b;
    } else {
      IdsConcat(a[1..], b);
      assert (a + b)[1..] == a[1..] + b;
    }
  }

  lemma {:induction false} IdsMember(rs: seq<Run>, x: string)
    ensures x in IdsOf(rs) <==> exists r :: r in rs && IdOf(r) == x
    ensures |IdsOf(rs)| == |rs|
  {
    if rs == [] {
    } else {
      IdsMember(rs[1..], x);
      assert forall r :: r in rs <==> r == rs[0] || r in rs[1..];
    }
  }

  // ----- where a run can occur -----

  /** The ancestor of `y`, itself of depth `m`, at depth `n`. */
  ghost function AncestorAt(byId: map<string, Run>, y: string, m: nat, n: nat): string
    requires Grounded(byId, y, m) && n <= m
    decreases m
  {
    if m == n then y else AncestorAt(byId, byId[y].parent.id, m - 1, n)
  }

  lemma {:induction false} AncestorStep(byId: map<string, Run>, y: string, m: nat, n: nat)
    requires Grounded(byId, y, m) && n < m
    ensures var c := AncestorAt(byId, y, m, n + 1);
            c in byId && byId[c].parent == ParentId(AncestorAt(byId, y, m, n))
    decreases m
  {
    if m > n + 1 {
      AncestorStep(byId, byId[y].parent.id, m - 1, n);
    }
  }

  /** `y` sits below the depth-`n` run `x`. */
  ghost predicate Below(byId: map<string, Run>, y: string, x: string, n: nat) {
    exists m: nat :: BelowAt(byId, y, m, x, n)
  }

  ghost predicate BelowAt(byId: map<string, Run>, y: string, m: nat, x: string, n: nat) {
    n <= m && Grounded(byId, y, m) && AncestorAt(byId, y, m, n) == x
  }

  lemma BelowUnique(byId: map<string, Run>, y: string, x: string, z: string, n: nat)
    requires Below(byId, y, x, n) && Below(byId, y, z, n)
    ensures x == z
  {
    var i: nat :| BelowAt(byId, y, i, x, n);
    var j: nat :| BelowAt(byId, y, j, z, n);
    DepthUnique(byId, y, i, j);
  }

  lemma BelowParent(byId: map<string, Run>, y: string, c: string, n: nat)
    requires Below(byId, y, c, n + 1) && c in byId && byId[c].parent.ParentId?
    ensures Below(byId, y, byId[c].parent.id, n) && !Below(byId, byId[c].parent.id, c, n + 1)
    ensures !Below(byId, y, y, n)
  {
    var m: nat :| BelowAt(byId, y, m, c, n + 1);
    AncestorStep(byId, y, m, n);
    assert BelowAt(byId, y, m, byId[c].parent.id, n);
    var p := byId[c].parent.id;
    if Below(byId, p, c, n + 1) {
      var k: nat :| BelowAt(byId, p, k, c, n + 1);
      BelowDepth(byId, y, m, n);
      DepthUnique(byId, p, k, n);
    }
    if Below(byId, y, y, n) {
      var k: nat :| BelowAt(byId, y, k, y, n);
      DepthUnique(byId, y, k, m);
      BelowDepth(byId, y, m, n);
      DepthUnique(byId, y, m, n);
    }
  }

  lemma {:induction false} BelowDepth(byId: map<string, Run>, y: string, m: nat, n: nat)
    requires Grounded(byId, y, m) && n <= m
    ensures Grounded(byId, AncestorAt(byId, y, m, n), n)
    decreases m
  {
    if m > n {
      BelowDepth(byId, byId[y].parent.id, m - 1, n);
    }
  }

  lemma {:induction false} InTree(f: Forest, keys: seq<string>, x: string, n: nat, r: Run)
    requires Linked(f, keys) && Grounded(f.byId, x, n) && r in PreOrder(TreeOf(f, keys, x, n))
    ensures IdOf(r) in f.byId && r == f.byId[IdOf(r)] && Below(f.byId, IdOf(r), x, n)
    decreases |f.byId| - n, 0, 0
  {
    DepthBound(f.byId, x, n);
    if r == f.byId[x] {
      assert BelowAt(f.byId, x, n, x, n);
    } else {
      KidsGrounded(f, keys, x, n);
      InTrees(f, keys, f.children[x], n + 1, r);
      var c :| c in f.children[x] && Below(f.byId, IdOf(r), c, n + 1);
      ChildMember(f.byId, keys, x, c);
      BelowParent(f.byId, IdOf(r), c, n);
    }
  }

  lemma {:induction false} InTrees(f: Forest, keys: seq<string>, xs: seq<string>, n: nat, r: Run)
    requires Linked(f, keys) && (forall x | x in xs :: Grounded(f.byId, x, n))
    requires r in PreOrders(TreesOf(f, keys, xs, n))
    ensures IdOf(r) in f.byId && r == f.byId[IdOf(r)]
    ensures exists x :: x in xs && Below(f.byId, IdOf(r), x, n)
    decreases |f.byId| - n, 1, |xs|
  {
    if r in PreOrder(TreeOf(f, keys, xs[0], n)) {
      InTree(f, keys, xs[0], n, r);
    } else {
      InTrees(f, keys, xs[1..], n, r);
    }
  }

  // ----- each run once -----

  lemma {:induction false} TreeNoDup(f: Forest, keys: seq<string>, x: string, n: nat)
    requires Linked(f, keys) && Grounded(f.byId, x, n)
    ensures NoDup(IdsOf(PreOrder(TreeOf(f, keys, x, n))))
    decreases |f.byId| - n, 0, 0
  {
    DepthBound(f.byId, x, n);
    KidsGrounded(f, keys, x, n);
    ChildrenNoDup(f.byId, keys, x);
    TreesNoDup(f, keys, f.children[x], n + 1);
    var rest := PreOrders(TreesOf(f, keys, f.children[x], n + 1));
    var all := [f.byId[x]] + rest;
    assert all[1..] == rest;
    IdsMember(rest, x);
    if x in IdsOf(rest) {
      var r :| r in rest && IdOf(r) == x;
      InTrees(f, keys, f.children[x], n + 1, r);
      var c :| c in f.children[x] && Below(f.byId, x, c, n + 1);
      ChildMember(f.byId, keys, x, c);
      BelowParent(f.byId, x, c, n);
      assert false;
    }
    assert IdsOf(all)[1..] == IdsOf(rest);
  }

  lemma {:induction false} TreesNoDup(f: Forest, keys: seq<string>, xs: seq<string>, n: nat)
    requires Linked(f, keys) && NoDup(xs) && forall x | x in xs :: Grounded(f.byId, x, n)
    ensures NoDup(IdsOf(PreOrders(TreesOf(f, keys, xs, n))))
    decreases |f.byId| - n, 1, |xs|
  {
    if xs == [] {
    } else {
      var first, rest := PreOrder(TreeOf(f, keys, xs[0], n)), PreOrders(TreesOf(f, keys, xs[1..], n));
      TreeNoDup(f, keys, xs[0], n);
      TreesNoDup(f, keys, xs[1..], n);
      IdsConcat(first, rest);
      forall y | y in IdsOf(first) ensures y !in IdsOf(rest) {
        SubtreesDisjoint(f, keys, xs, n, y);
      }
      NoDupConcat(IdsOf(first), IdsOf(rest));
    }
  }

  lemma SubtreesDisjoint(f: Forest, keys: seq<string>, xs: seq<string>, n: nat, y: string)
    requires Linked(f, keys) && xs != [] && NoDup(xs) && forall x | x in xs :: Grounded(f.byId, x, n)
    requires y in IdsOf(PreOrder(TreeOf(f, keys, xs[0], n)))
    ensures y !in IdsOf(PreOrders(TreesOf(f, keys, xs[1..], n)))
  {
    var first, rest := PreOrder(TreeOf(f, keys, xs[0], n)), PreOrders(TreesOf(f, keys, xs[1..], n));
    IdsMember(first, y);
    IdsMember(rest, y);
    if y in IdsOf(rest) {
      var r :| r in first && IdOf(r) == y;
      InTree(f, keys, xs[0], n, r);
      var q :| q in rest && IdOf(q) == y;
      InTrees(f, keys, xs[1..], n, q);
      var z :| z in xs[1..] && Below(f.byId, y, z, n);
      BelowUnique(f.byId, y, xs[0], z, n);
    }
  }

  // ----- every grounded run -----

  lemma {:induction false} ChildFollows(f: Forest, keys: seq<string>, x: string, n: nat, p: string, y: string)
    requires Linked(f, keys) && Grounded(f.byId, x, n) && y in f.byId && f.byId[y].parent == ParentId(p)
    requires p in IdsOf(PreOrder(TreeOf(f, keys, x, n)))
    ensures y in IdsOf(PreOrder(TreeOf(f, keys, x, n)))
    decreases |f.byId| - n, 0, 0
  {
    DepthBound(f.byId, x, n);
    KidsGrounded(f, keys, x, n);
    var rest := PreOrders(TreesOf(f, keys, f.children[x], n + 1));
    IdsConcat([f.byId[x]], rest);
    if p == x {
      ChildMember(f.byId, keys, x, y);
      HeadPresent(f, keys, f.children[x], n + 1, y);
    } else {
      assert p in IdsOf(rest);
      ChildFollowsIn(f, keys, f.children[x], n + 1, p, y);
    }
  }

  lemma {:induction false} ChildFollowsIn(f: Forest, keys: seq<string>, xs: seq<string>, n: nat, p: string, y: string)
    requires Linked(f, keys) && (forall x | x in xs :: Grounded(f.byId, x, n))
    requires y in f.byId && f.byId[y].parent == ParentId(p)
    requires p in IdsOf(PreOrders(TreesOf(f, keys, xs, n)))
    ensures y in IdsOf(PreOrders(TreesOf(f, keys, xs, n)))
    decreases |f.byId| - n, 1, |xs|
  {
    if xs != [] {
      IdsConcat(PreOrder(TreeOf(f, keys, xs[0], n)), PreOrders(TreesOf(f, keys, xs[1..], n)));
      if p in IdsOf(PreOrder(TreeOf(f, keys, xs[0], n))) {
        ChildFollows(f, keys, xs[0], n, p, y);
      } else {
        ChildFollowsIn(f, keys, xs[1..], n, p, y);
      }
    }
  }

  lemma {:induction false} HeadPresent(f: Forest, keys: seq<string>, xs: seq<string>, n: nat, x: string)
    requires Linked(f, keys) && (forall z | z in xs :: Grounded(f.byId, z, n)) && x in xs
    ensures x in IdsOf(PreOrders(TreesOf(f, keys, xs, n)))
  {
    IdsConcat(PreOrder(TreeOf(f, keys, xs[0], n)), PreOrders(TreesOf(f, keys, xs[1..], n)));
    if x == xs[0] {
      assert PreOrder(TreeOf(f, keys, x, n))[0] == f.byId[x];
      assert IdOf(f.byId[x]) == x;
      assert IdsOf(PreOrder(TreeOf(f, keys, x, n)))[0] == x;
    } else {
      HeadPresent(f, keys, xs[1..], n, x);
    }
  }

  lemma RootsGrounded(f: Forest, keys: seq<string>)
    requires Linked(f, keys)
    ensures forall x | x in f.roots :: Grounded(f.byId, x, 0)
    ensures forall x :: Grounded(f.byId, x, 0) ==> x in f.roots
  {
    forall x | x in f.roots ensures Grounded(f.byId, x, 0) { RootMember(f.byId, keys, x); }
    forall x | Grounded(f.byId, x, 0) ensures x in f.roots { RootMember(f.byId, keys, x); }
  }

  /** All trees, one after the other. */
  ghost function Flat(f: Forest, keys: seq<string>): seq<Run>
    requires Linked(f, keys)
  {
    RootsGrounded(f, keys);
    PreOrders(TreesOf(f, keys, f.roots, 0))
  }

  lemma {:induction false} GroundedPresent(f: Forest, keys: seq<string>, y: string, m: nat)
    requires Linked(f, keys) && Grounded(f.byId, y, m)
    ensures y in IdsOf(Flat(f, keys))
    decreases m
  {
    RootsGrounded(f, keys);
    if m == 0 {
      HeadPresent(f, keys, f.roots, 0, y);
    } else {
      GroundedPresent(f, keys, f.byId[y].parent.id, m - 1);
      ChildFollowsIn(f, keys, f.roots, 0, f.byId[y].parent.id, y);
    }
  }

  /** The parent chain of `y` ends at a parentless run. */
  ghost predicate Whole(byId: map<string, Run>, y: string) { exists m: nat :: Grounded(byId, y, m) }

  lemma PresentIffWhole(f: Forest, keys: seq<string>, y: string)
    requires Linked(f, keys)
    ensures y in IdsOf(Flat(f, keys)) <==> Whole(f.byId, y)
  {
    if Whole(f.byId, y) {
      var m: nat :| Grounded(f.byId, y, m);
      GroundedPresent(f, keys, y, m);
    }
    RootsGrounded(f, keys);
    IdsMember(Flat(f, keys), y);
    if y in IdsOf(Flat(f, keys)) {
      var r :| r in Flat(f, keys) && IdOf(r) == y;
      InTrees(f, keys, f.roots, 0, r);
      var x :| x in f.roots && Below(f.byId, y, x, 0);
      var m: nat :| BelowAt(f.byId, y, m, x, 0);
      assert Grounded(f.byId, y, m);
    }
  }

  /** The flattened forest of any response holds exactly the runs whose parent chain ends at a
      parentless run, each once; fragments and parent cycles vanish. */
  lemma ForestHoldsWholeChains(f: Forest, keys: seq<string>)
    requires Linked(f, keys)
    ensures NoDup(IdsOf(Flat(f, keys)))
    ensures forall y :: y in IdsOf(Flat(f, keys)) <==> Whole(f.byId, y)
    ensures forall r | r in Flat(f, keys) :: IdOf(r) in f.byId && r == f.byId[IdOf(r)]
  {
    RootsGrounded(f, keys);
    RootsNoDup(f.byId, keys);
    TreesNoDup(f, keys, f.roots, 0);
    forall y ensures y in IdsOf(Flat(f, keys)) <==> Whole(f.byId, y) {
      PresentIffWhole(f, keys, y);
    }
    forall r | r in Flat(f, keys) ensures IdOf(r) in f.byId && r == f.byId[IdOf(r)] {
      InTrees(f, keys, f.roots, 0, r);
    }
  }

  // ----- the order of the flattened forest -----

  lemma PrecedesIn(a: seq<string>, s: seq<string>, b: seq<string>, x: string, y: string)
    requires Precedes(s, x, y)
    ensures Precedes(a + s + b, x, y)
  {
    var i, j :| 0 <= i < j < |s| && s[i] == x && s[j] == y;
    var all := a + s + b;
    assert all[|a| + i] == x && all[|a| + j] == y;
  }

  lemma PrecedesAcross(a: seq<string>, b: seq<string>, x: string, y: string)
    requires x in a && y in b
    ensures Precedes(a + b, x, y)
  {
    var i :| 0 <= i < |a| && a[i] == x;
    var j :| 0 <= j < |b| && b[j] == y;
    assert (a + b)[i] == x && (a + b)[|a| + j] == y;
  }

  /** The ids below `x`, in the order of the flattened tree. */
  ghost function TreeIds(f: Forest, keys: seq<string>, x: string, n: nat): seq<string>
    requires Linked(f, keys) && Grounded(f.byId, x, n)
  {
    IdsOf(PreOrder(TreeOf(f, keys, x, n)))
  }

  ghost function TreesIds(f: Forest, keys: seq<string>, xs: seq<string>, n: nat): seq<string>
    requires Linked(f, keys) && forall x | x in xs :: Grounded(f.byId, x, n)
  {
    IdsOf(PreOrders(TreesOf(f, keys, xs, n)))
  }

  lemma TreesIdsCons(f: Forest, keys: seq<string>, xs: seq<string>, n: nat)
    requires Linked(f, keys) && xs != [] && forall x | x in xs :: Grounded(f.byId, x, n)
    ensures TreesIds(f, keys, xs, n) == TreeIds(f, keys, xs[0], n) + TreesIds(f, keys, xs[1..], n)
  {
    IdsConcat(PreOrder(TreeOf(f, keys, xs[0], n)), PreOrders(TreesOf(f, keys, xs[1..], n)));
  }

  lemma TreeIdsCons(f: Forest, keys: seq<string>, x: string, n: nat)
    requires Linked(f, keys) && Grounded(f.byId, x, n)
    ensures forall c | c in f.children[x] :: Grounded(f.byId, c, n + 1)
    ensures TreeIds(f, keys, x, n) == [x] + TreesIds(f, keys, f.children[x], n + 1)
  {
    KidsGrounded(f, keys, x, n);
    var rest := PreOrders(TreesOf(f, keys, f.children[x], n + 1));
    assert ([f.byId[x]] + rest)[1..] == rest;
  }

  /** The trees of a list follow each other in its order. */
  lemma {:induction false} TreesFollow(f: Forest, keys: seq<string>, xs: seq<string>, n: nat, x: string, y: string,
                                       a: string, b: string)
    requires Linked(f, keys) && (forall z | z in xs :: Grounded(f.byId, z, n)) && Precedes(xs, x, y)
    requires a in TreeIds(f, keys, x, n) && b in TreeIds(f, keys, y, n)
    ensures Precedes(TreesIds(f, keys, xs, n), a, b)
  {
    var i, j :| 0 <= i < j < |xs| && xs[i] == x && xs[j] == y;
    TreesIdsCons(f, keys, xs, n);
    if i == 0 {
      assert y in xs[1..] by { assert xs[1..][j - 1] == y; }
      TreeInside(f, keys, xs[1..], n, y, b);
      PrecedesAcross(TreeIds(f, keys, x, n), TreesIds(f, keys, xs[1..], n), a, b);
    } else {
      assert xs[1..][i - 1] == x && xs[1..][j - 1] == y;
      TreesFollow(f, keys, xs[1..], n, x, y, a, b);
      PrecedesIn(TreeIds(f, keys, xs[0], n), TreesIds(f, keys, xs[1..], n), [], a, b);
      assert TreesIds(f, keys, xs, n) == TreeIds(f, keys, xs[0], n) + TreesIds(f, keys, xs[1..], n) + [];
    }
  }

  lemma {:induction false} TreeInside(f: Forest, keys: seq<string>, xs: seq<string>, n: nat, x: string, a: string)
    requires Linked(f, keys) && (forall z | z in xs :: Grounded(f.byId, z, n)) && x in xs
    requires a in TreeIds(f, keys, x, n)
    ensures a in TreesIds(f, keys, xs, n)
  {
    TreesIdsCons(f, keys, xs, n);
    if x != xs[0] {
      TreeInside(f, keys, xs[1..], n, x, a);
    }
  }

  /** The order inside one tree of a list is the order inside the list. */
  lemma {:induction false} OrderInside(f: Forest, keys: seq<string>, xs: seq<string>, n: nat, x: string, a: string,
                                       b: string)
    requires Linked(f, keys) && (forall z | z in xs :: Grounded(f.byId, z, n)) && x in xs
    requires Precedes(TreeIds(f, keys, x, n), a, b)
    ensures Precedes(TreesIds(f, keys, xs, n), a, b)
  {
    TreesIdsCons(f, keys, xs, n);
    var first, rest := TreeIds(f, keys, xs[0], n), TreesIds(f, keys, xs[1..], n);
    if x == xs[0] {
      PrecedesIn([], first, rest, a, b);
      assert [] + first + rest == first + rest;
    } else {
      OrderInside(f, keys, xs[1..], n, x, a, b);
      PrecedesIn(first, rest, [], a, b);
      assert first + rest + [] == first + rest;
    }
  }

  /** The order inside a tree is the order inside the flattened forest. */
  lemma {:induction false} OrderInForest(f: Forest, keys: seq<string>, x: string, n: nat, a: string, b: string)
    requires Linked(f, keys) && Grounded(f.byId, x, n) && Precedes(TreeIds(f, keys, x, n), a, b)
    ensures Precedes(IdsOf(Flat(f, keys)), a, b)
    decreases n
  {
    RootsGrounded(f, keys);
    if n == 0 {
      OrderInside(f, keys, f.roots, 0, x, a, b);
    } else {
      var p := f.byId[x].parent.id;
      ChildMember(f.byId, keys, p, x);
      TreeIdsCons(f, keys, p, n - 1);
      OrderInside(f, keys, f.children[p], n, x, a, b);
      var rest := TreesIds(f, keys, f.children[p], n);
      PrecedesIn([p], rest, [], a, b);
      assert [p] + rest + [] == [p] + rest;
      OrderInForest(f, keys, p, n - 1, a, b);
    }
  }

  /** Whatever is below `x` is in its tree. */
  lemma {:induction false} BelowInTree(f: Forest, keys: seq<string>, x: string, n: nat, a: string, m: nat)
    requires Linked(f, keys) && BelowAt(f.byId, a, m, x, n) && Grounded(f.byId, x, n)
    ensures a in TreeIds(f, keys, x, n)
    decreases m
  {
    if m == n {
      TreeIdsCons(f, keys, x, n);
    } else {
      var p := f.byId[a].parent.id;
      BelowInTree(f, keys, x, n, p, m - 1);
      ChildFollows(f, keys, x, n, p, a);
    }
  }

  /** The trees of two children follow each other in the forest in the order of the child list. */
  lemma OrderBelow(f: Forest, keys: seq<string>, p: string, n: nat, x: string, y: string, a: string, b: string)
    requires Linked(f, keys) && Grounded(f.byId, p, n) && Grounded(f.byId, x, n + 1) && Grounded(f.byId, y, n + 1)
    requires Precedes(f.children[p], x, y)
    requires a in TreeIds(f, keys, x, n + 1) && b in TreeIds(f, keys, y, n + 1)
    ensures Precedes(IdsOf(Flat(f, keys)), a, b)
  {
    TreeIdsCons(f, keys, p, n);
    TreesFollow(f, keys, f.children[p], n + 1, x, y, a, b);
    var rest := TreesIds(f, keys, f.children[p], n + 1);
    PrecedesIn([p], rest, [], a, b);
    assert [p] + rest + [] == [p] + rest;
    OrderInForest(f, keys, p, n, a, b);
  }

  lemma BelowIsInTree(f: Forest, keys: seq<string>, x: string, n: nat, a: string)
    requires Linked(f, keys) && Below(f.byId, a, x, n)
    ensures Grounded(f.byId, x, n) && a in TreeIds(f, keys, x, n)
  {
    var m: nat :| BelowAt(f.byId, a, m, x, n);
    BelowDepth(f.byId, a, m, n);
    BelowInTree(f, keys, x, n, a, m);
  }

  /** In the flattened forest, whole subtrees follow each other in the order in which the response first lists their
      tops, which share a parent or have none: all of the first comes before any of the second. */
  lemma SubtreesInOrder(f: Forest, runs: seq<Run>, x: string, y: string, n: nat, a: string, b: string)
    requires f.byId == ById(runs) && Linked(f, Keys(runs)) && MetBefore(runs, x, y)
    requires x in f.byId && y in f.byId && f.byId[x].parent == f.byId[y].parent
    requires Below(f.byId, a, x, n) && Below(f.byId, b, y, n)
    ensures Precedes(IdsOf(Flat(f, Keys(runs))), a, b)
  {
    var keys := Keys(runs);
    ForestInOrder(f, runs);
    BelowIsInTree(f, keys, x, n, a);
    BelowIsInTree(f, keys, y, n, b);
    SiblingsFollow(f, keys, x, y, n, a, b);
  }

  lemma SiblingsFollow(f: Forest, keys: seq<string>, x: string, y: string, n: nat, a: string, b: string)
    requires Linked(f, keys) && Grounded(f.byId, x, n) && Grounded(f.byId, y, n)
    requires a in TreeIds(f, keys, x, n) && b in TreeIds(f, keys, y, n)
    requires n == 0 ==> Precedes(f.roots, x, y)
    requires n > 0 ==> f.byId[x].parent.id in f.children && Precedes(f.children[f.byId[x].parent.id], x, y)
    ensures Precedes(IdsOf(Flat(f, keys)), a, b)
  {
    RootsGrounded(f, keys);
    if n == 0 {
      TreesFollow(f, keys, f.roots, 0, x, y, a, b);
    } else {
      OrderBelow(f, keys, f.byId[x].parent.id, n - 1, x, y, a, b);
    }
  }

  /** Finds the whole tree that holds the requested run. */
  method FetchRunTree(runs: seq<Run>, runId: string) returns (tree: Option<Tree>)
    ensures tree.Some? <==> Whole(ById(runs), runId)
    ensures tree.Some? ==> exists r :: r in PreOrder(tree.value) && r.id == Some(runId)
    ensures tree.Some? ==> tree.value.run.parent.NoParent?
  {
    var forest := TreesFromFlatRuns(runs);
    ghost var keys := Keys(runs);
    RootsGrounded(forest, keys);
    PresentIffWhole(forest, keys, runId);
    assert forest.roots[0..] == forest.roots;
    for i := 0 to |forest.roots|
      invariant runId in IdsOf(Flat(forest, keys))
                <==> runId in IdsOf(PreOrders(TreesOf(forest, keys, forest.roots[i..], 0)))
    {
      var candidate := TreeOf(forest, keys, forest.roots[i], 0);
      var flattened := FlattenRunTree(candidate);
      assert forest.roots[i..][0] == forest.roots[i] && forest.roots[i..][1..] == forest.roots[i + 1..];
      IdsConcat(flattened, PreOrders(TreesOf(forest, keys, forest.roots[i + 1..], 0)));
      IdsMember(flattened, runId);
      var found := exists r | r in flattened :: r.id == Some(runId);
      if found {
        ghost var r :| r in flattened && r.id == Some(runId);
        assert IdOf(r) == runId;
        return Some(candidate);
      }
      forall r | r in flattened ensures IdOf(r) != runId {
        InTree(forest, keys, forest.roots[i], 0, r);
      }
    }
    return None;
  }

  // ----- the later tree checks -----

  datatype SourceRun = SourceRun(runId: string, name: string, parent: Option<string>, start: int, end: Option<int>)

  /** Converts one provider run; an unusable id, name or time makes the source unavailable. */
  function Convert(r: Run): Option<SourceRun> {
    if r.id.None? || r.id.value == "" || r.name.None? || r.name.value == "" || r.start.None? || r.endMalformed then None
    else
      var parent := if r.parent.ParentId? && r.parent.id != "" then Some(r.parent.id) else None;
      Some(SourceRun(r.id.value, r.name.value, parent, r.start.value, r.end))
  }

  /** The run has a non-empty id and name and usable times; an absent, empty or non-text parent counts as none. */
  ghost predicate Converts(r: Run, s: SourceRun) {
    && r.id == Some(s.runId) && s.runId != "" && r.name == Some(s.name) && s.name != ""
    && r.start == Some(s.start) && !r.endMalformed && r.end == s.end
    && match s.parent
       case Some(p) => p != "" && r.parent == ParentId(p)
       case None => r.parent == NoParent || r.parent == NotText || r.parent == ParentId("")
  }

  lemma ConvertIff(r: Run, s: SourceRun)
    ensures Convert(r) == Some(s) <==> Converts(r, s)
  {
  }

  function ConvertAll(rs: seq<Run>): Option<seq<SourceRun>> {
    if rs == [] then Some([])
    else
      var head := Convert(rs[0]);
      if head.None? then None
      else
        var tail := ConvertAll(rs[1..]);
        if tail.None? then None else Some([head.value] + tail.value)
  }

  datatype TreeError = NoRuns | DuplicateRun(id: string) | RootRuns(count: nat) | UnknownParentRun(id: string)

  ghost function RunIds(rs: seq<SourceRun>): seq<string> {
    if rs == [] then [] else RunIds(rs[..|rs| - 1]) + [rs[|rs| - 1].runId]
  }

  function RootCountOf(rs: seq<SourceRun>): nat {
    if rs == [] then 0
    else RootCountOf(rs[..|rs| - 1]) + (if rs[|rs| - 1].parent.None? then 1 else 0)
  }

  ghost predicate DistinctRuns(rs: seq<SourceRun>) {
    forall i, j | 0 <= i < j < |rs| :: rs[i].runId != rs[j].runId
  }

  ghost predicate KnownRun(rs: seq<SourceRun>, id: string) { exists j :: 0 <= j < |rs| && rs[j].runId == id }

  ghost predicate ParentsKnown(rs: seq<SourceRun>) {
    forall i | 0 <= i < |rs| && rs[i].parent.Some? :: KnownRun(rs, rs[i].parent.value)
  }

  /** The first check that a run list fails, in order: some runs, distinct ids, one root, known parents. */
  ghost predicate FailsFirst(rs: seq<SourceRun>, error: TreeError) {
    match error
    case NoRuns => rs == []
    case DuplicateRun(id) => exists i, j :: 0 <= i < j < |rs| && rs[i].runId == rs[j].runId == id
    case RootRuns(n) => rs != [] && DistinctRuns(rs) && n == RootCountOf(rs) != 1
    case UnknownParentRun(id) =>
      && rs != [] && DistinctRuns(rs) && RootCountOf(rs) == 1
      && (exists i :: 0 <= i < |rs| && rs[i].parent == Some(id)) && !KnownRun(rs, id)
  }

  /** The tree checks that precede event mapping. */
  method CheckRuns(rs: seq<SourceRun>) returns (error: Option<TreeError>)
    ensures error.None? <==> rs != [] && DistinctRuns(rs) && RootCountOf(rs) == 1 && ParentsKnown(rs)
    ensures error.Some? ==> FailsFirst(rs, error.value)
  {
    if rs == [] {
      return Some(NoRuns);
    }
    var byId: map<string, nat> := map[];
    for i := 0 to |rs|
      invariant forall j | 0 <= j < i :: rs[j].runId in byId
      invariant forall id | id in byId :: byId[id] < i && rs[byId[id]].runId == id
      invariant forall j, k | 0 <= j < k < i :: rs[j].runId != rs[k].runId
    {
      if rs[i].runId in byId {
        ghost var j := byId[rs[i].runId];
        assert rs[j].runId == rs[i].runId;
        return Some(DuplicateRun(rs[i].runId));
      }
      byId := byId[rs[i].runId := i];
    }
    var roots := RootCountOf(rs);
    if roots != 1 {
      return Some(RootRuns(roots));
    }
    for i := 0 to |rs|
      invariant forall k | 0 <= k < i && rs[k].parent.Some? :: KnownRun(rs, rs[k].parent.value)
    {
      if rs[i].parent.Some? {
        if rs[i].parent.value !in byId {
          return Some(UnknownParentRun(rs[i].parent.value));
        }
        assert rs[byId[rs[i].parent.value]].runId == rs[i].parent.value;
      }
    }
    return None;
  }

  /** What a run carries besides its place in the tree: its attributes, each with whether its value is a usable
      scalar, and its error text. */
  datatype Extra = Extra(attributes: map<string, bool>, error: Option<string>)

  datatype Kind = Turn | Routing | AnswerKind | Tool | Database | Retrieval | Policy | Confirmation | Escalation | Retry
                | StepKind

  const KIND_PREFIXES: seq<(string, Kind)> :=
    [ ("support_agent.turn", Turn), ("support_agent.routing", Routing), ("support_agent.answer", AnswerKind),
      ("support_agent.tool.", Tool), ("support_agent.database.", Database), ("support_agent.retrieval.", Retrieval),
      ("support_agent.policy.", Policy), ("support_agent.confirmation", Confirmation),
      ("support_agent.escalation", Escalation), ("support_agent.retry", Retry) ]

  /** The kind of the first prefix that fits. */
  function KindFrom(prefixes: seq<(string, Kind)>, name: string): Kind {
    if prefixes == [] then StepKind
    else if prefixes[0].0 <= name then prefixes[0].1
    else KindFrom(prefixes[1..], name)
  }

  method InferEventKind(name: string) returns (kind: Kind)
    ensures kind == KindFrom(KIND_PREFIXES, name)
  {
    for i := 0 to |KIND_PREFIXES|
      invariant KindFrom(KIND_PREFIXES, name) == KindFrom(KIND_PREFIXES[i..], name)
    {
      if KIND_PREFIXES[i].0 <= name {
        return KIND_PREFIXES[i].1;
      }
      assert KIND_PREFIXES[i..][1..] == KIND_PREFIXES[i + 1..];
    }
    return StepKind;
  }

  /** The kind of the first listed prefix that the name starts with, or a plain step without one. */
  ghost predicate IsKindIn(prefixes: seq<(string, Kind)>, name: string, kind: Kind) {
    || (kind == StepKind && forall p | p in prefixes :: !(p.0 <= name))
    || (exists i :: 0 <= i < |prefixes| && prefixes[i].0 <= name && prefixes[i].1 == kind
                    && forall j | 0 <= j < i :: !(prefixes[j].0 <= name))
  }

  ghost predicate IsKindOf(name: string, kind: Kind) { IsKindIn(KIND_PREFIXES, name, kind) }

  lemma {:induction false} KindIsFirst(prefixes: seq<(string, Kind)>, name: string)
    ensures IsKindIn(prefixes, name, KindFrom(prefixes, name))
  {
    if prefixes != [] && !(prefixes[0].0 <= name) {
      var rest, kind := prefixes[1..], KindFrom(prefixes, name);
      KindIsFirst(rest, name);
      assert forall p :: p in prefixes <==> p == prefixes[0] || p in rest;
      if i :| 0 <= i < |rest| && rest[i].0 <= name && rest[i].1 == kind
              && forall j | 0 <= j < i :: !(rest[j].0 <= name)
      {
        assert prefixes[i + 1] == rest[i];
        forall j | 0 <= j < i + 1 ensures !(prefixes[j].0 <= name) {
          if j > 0 { assert rest[j - 1] == prefixes[j]; }
        }
      }
    }
  }

  /** The further fields of an event. */
  datatype Details = Details(name: string, kind: Kind, errorCode: Option<string>)

  /** Only a stable reason code is kept from an error text. */
  function DetailsOf(r: SourceRun, x: Extra, stable: string -> bool): Details {
    Details(r.name, KindFrom(KIND_PREFIXES, r.name), if x.error.Some? && stable(x.error.value) then x.error else None)
  }

  /** The allowlisted attributes with usable values. */
  function KeptKeys(x: Extra, allowlist: set<string>): set<string> {
    set key | key in x.attributes && key in allowlist && x.attributes[key]
  }

  /** An attribute that is not allowlisted and looks sensitive: the trace is refused. */
  predicate HasSensitive(x: Extra, allowlist: set<string>, sensitive: string -> bool) {
    exists key :: key in x.attributes && key !in allowlist && sensitive(key)
  }

  /** Maps the runs to events in order, or refuses the trace for a sensitive attribute. */
  method MapEvents(rs: seq<SourceRun>, extras: seq<Extra>, allowlist: set<string>, sensitive: string -> bool,
                   stable: string -> bool)
    returns (events: Option<seq<Event>>, details: seq<Details>)
    requires |extras| == |rs|
    ensures events.None? <==>
              exists i, key :: 0 <= i < |extras| && key in extras[i].attributes && key !in allowlist && sensitive(key)
    ensures events.Some? ==>
              && MappedEvents(rs, events.value, allowlist) && |details| == |rs|
              && forall i | 0 <= i < |rs| ::
                   && (forall key :: key in events.value[i].keys <==>
                         key in allowlist && key in extras[i].attributes && extras[i].attributes[key])
                   && details[i].name == rs[i].name && IsKindOf(rs[i].name, details[i].kind)
                   && (forall code :: details[i].errorCode == Some(code) <==>
                         extras[i].error == Some(code) && stable(code))
  {
    var mapped: seq<Event> := [];
    details := [];
    for i := 0 to |rs|
      invariant |mapped| == |details| == i
      invariant forall j | 0 <= j < i :: !HasSensitive(extras[j], allowlist, sensitive)
      invariant forall j | 0 <= j < i ::
                  mapped[j] == Event(rs[j].runId, rs[j].parent, rs[j].start, rs[j].end, KeptKeys(extras[j], allowlist))
      invariant forall j | 0 <= j < i :: details[j] == DetailsOf(rs[j], extras[j], stable)
    {
      if HasSensitive(extras[i], allowlist, sensitive) {
        return None, [];
      }
      mapped := mapped + [Event(rs[i].runId, rs[i].parent, rs[i].start, rs[i].end, KeptKeys(extras[i], allowlist))];
      var kind := InferEventKind(rs[i].name);
      var code := if extras[i].error.Some? && stable(extras[i].error.value) then extras[i].error else None;
      details := details + [Details(rs[i].name, kind, code)];
    }
    events := Some(mapped);
    forall i | 0 <= i < |rs| ensures IsKindOf(rs[i].name, details[i].kind) { KindIsFirst(KIND_PREFIXES, rs[i].name); }
  }

  ghost predicate MappedEvents(rs: seq<SourceRun>, events: seq<Event>, allowlist: set<string>) {
    && |events| == |rs|
    && forall i | 0 <= i < |rs| ::
         && events[i].id == rs[i].runId && events[i].parent == rs[i].parent
         && events[i].start == rs[i].start && events[i].end == rs[i].end
         && events[i].keys <= allowlist
  }

  // ----- parents come first -----

  /** Every run names a parent that is among `seen` or earlier in the list. */
  ghost predicate Covered(rs: seq<Run>, seen: set<string>) {
    rs == []
    || (rs[0].parent.ParentId? && rs[0].parent.id in seen && Covered(rs[1..], seen + {IdOf(rs[0])}))
  }

  lemma {:induction false} CoveredMore(rs: seq<Run>, seen: set<string>, more: set<string>)
    requires Covered(rs, seen) && seen <= more
    ensures Covered(rs, more)
  {
    if rs != [] {
      CoveredMore(rs[1..], seen + {IdOf(rs[0])}, more + {IdOf(rs[0])});
    }
  }

  lemma {:induction false} CoveredConcat(a: seq<Run>, b: seq<Run>, seen: set<string>)
    requires Covered(a, seen) && Covered(b, seen)
    ensures Covered(a + b, seen)
  {
    if a == [] {
      assert a + b == b;
    } else {
      CoveredMore(b, seen, seen + {IdOf(a[0])});
      CoveredConcat(a[1..], b, seen + {IdOf(a[0])});
      assert (a + b)[1..] == a[1..] + b;
    }
  }

  lemma {:induction false} CoveredAt(rs: seq<Run>, seen: set<string>, i: nat)
    requires Covered(rs, seen) && i < |rs|
    ensures rs[i].parent.ParentId?
    ensures rs[i].parent.id in seen || exists j :: 0 <= j < i && IdOf(rs[j]) == rs[i].parent.id
  {
    if i > 0 {
      var seen' := seen + {IdOf(rs[0])};
      CoveredAt(rs[1..], seen', i - 1);
      if rs[i].parent.id !in seen' {
        var j :| 0 <= j < i - 1 && IdOf(rs[1..][j]) == rs[i].parent.id;
        assert IdOf(rs[j + 1]) == rs[i].parent.id;
      } else if rs[i].parent.id !in seen {
        assert IdOf(rs[0]) == rs[i].parent.id;
      }
    }
  }

  lemma {:induction false} TreeCovered(f: Forest, keys: seq<string>, x: string, n: nat, seen: set<string>)
    requires Linked(f, keys) && Grounded(f.byId, x, n)
    requires f.byId[x].parent.ParentId? && f.byId[x].parent.id in seen
    ensures Covered(PreOrder(TreeOf(f, keys, x, n)), seen)
    decreases |f.byId| - n, 0, 0
  {
    DepthBound(f.byId, x, n);
    KidsGrounded(f, keys, x, n);
    forall c | c in f.children[x] ensures f.byId[c].parent == ParentId(x) { ChildMember(f.byId, keys, x, c); }
    TreesCovered(f, keys, f.children[x], n + 1, seen + {x});
    var rest := PreOrders(TreesOf(f, keys, f.children[x], n + 1));
    assert ([f.byId[x]] + rest)[1..] == rest && IdOf(f.byId[x]) == x;
  }

  lemma {:induction false} TreesCovered(f: Forest, keys: seq<string>, xs: seq<string>, n: nat, seen: set<string>)
    requires Linked(f, keys) && forall x | x in xs :: Grounded(f.byId, x, n)
    requires forall x | x in xs :: x in f.byId && f.byId[x].parent.ParentId? && f.byId[x].parent.id in seen
    ensures Covered(PreOrders(TreesOf(f, keys, xs, n)), seen)
    decreases |f.byId| - n, 1, |xs|
  {
    if xs != [] {
      TreeCovered(f, keys, xs[0], n, seen);
      TreesCovered(f, keys, xs[1..], n, seen);
      CoveredConcat(PreOrder(TreeOf(f, keys, xs[0], n)), PreOrders(TreesOf(f, keys, xs[1..], n)), seen);
    }
  }

  /** In the pre-order of a root's tree the root is first and every other run follows its parent. */
  lemma TreeParentsFirst(f: Forest, keys: seq<string>, x: string)
    requires Linked(f, keys) && Grounded(f.byId, x, 0)
    ensures var rs := PreOrder(TreeOf(f, keys, x, 0));
            && rs != [] && rs[0] == f.byId[x] && rs[0].parent.NoParent? && NoDup(IdsOf(rs))
            && forall i | 0 < i < |rs| ::
                 rs[i].parent.ParentId? && exists j :: 0 <= j < i && IdOf(rs[j]) == rs[i].parent.id
  {
    var rs := PreOrder(TreeOf(f, keys, x, 0));
    KidsGrounded(f, keys, x, 0);
    DepthBound(f.byId, x, 0);
    TreeNoDup(f, keys, x, 0);
    forall c | c in f.children[x] ensures f.byId[c].parent == ParentId(x) { ChildMember(f.byId, keys, x, c); }
    TreesCovered(f, keys, f.children[x], 1, {x});
    var rest := PreOrders(TreesOf(f, keys, f.children[x], 1));
    assert rs == [f.byId[x]] + rest;
    forall i | 0 < i < |rs|
      ensures rs[i].parent.ParentId? && exists j :: 0 <= j < i && IdOf(rs[j]) == rs[i].parent.id
    {
      CoveredAt(rest, {x}, i - 1);
      if rest[i - 1].parent.id == x {
        assert IdOf(rs[0]) == rs[i].parent.id;
      } else {
        var j :| 0 <= j < i - 1 && IdOf(rest[j]) == rest[i - 1].parent.id;
        assert IdOf(rs[j + 1]) == rs[i].parent.id;
      }
    }
  }

  lemma {:induction false} ConvertAllAt(rs: seq<Run>, i: nat)
    requires ConvertAll(rs).Some? && i < |rs|
    ensures |ConvertAll(rs).value| == |rs| && Convert(rs[i]) == Some(ConvertAll(rs).value[i])
  {
    ConvertAllSize(rs);
    if i > 0 {
      ConvertAllAt(rs[1..], i - 1);
    }
  }

  lemma {:induction false} ConvertAllSize(rs: seq<Run>)
    requires ConvertAll(rs).Some?
    ensures |ConvertAll(rs).value| == |rs|
  {
    if rs != [] {
      ConvertAllSize(rs[1..]);
    }
  }

  lemma {:induction false} NoDupAt(s: seq<string>, i: nat, j: nat)
    requires NoDup(s) && i < j < |s|
    ensures s[i] != s[j]
  {
    if i == 0 {
      assert s[j] in s[1..];
    } else {
      NoDupAt(s[1..], i - 1, j - 1);
    }
  }

  lemma {:induction false} IdsAt(rs: seq<Run>, i: nat)
    requires i < |rs|
    ensures |IdsOf(rs)| == |rs| && IdsOf(rs)[i] == IdOf(rs[i])
  {
    IdsMember(rs, "");
    if i > 0 {
      IdsAt(rs[1..], i - 1);
    }
  }

  lemma {:induction false} OneRoot(rs: seq<SourceRun>)
    requires rs != [] && rs[0].parent.None? && forall i | 0 < i < |rs| :: rs[i].parent.Some?
    ensures RootCountOf(rs) == 1
  {
    if |rs| > 1 {
      OneRoot(rs[..|rs| - 1]);
    } else {
      assert rs[..0] == [];
    }
  }

  ghost predicate PreOrdered(out: seq<SourceRun>) {
    && out != [] && out[0].parent.None? && DistinctRuns(out)
    && forall i | 0 < i < |out| ::
         out[i].parent.Some? && exists j :: 0 <= j < i && out[j].runId == out[i].parent.value
  }

  lemma {:induction false} ConvertedPreOrdered(rs: seq<Run>)
    requires rs != [] && rs[0].parent.NoParent? && NoDup(IdsOf(rs))
    requires forall i | 0 < i < |rs| ::
               rs[i].parent.ParentId? && exists j :: 0 <= j < i && IdOf(rs[j]) == rs[i].parent.id
    requires ConvertAll(rs).Some?
    ensures PreOrdered(ConvertAll(rs).value)
  {
    var out := ConvertAll(rs).value;
    ConvertAllSize(rs);
    forall i | 0 <= i < |rs| ensures Convert(rs[i]) == Some(out[i]) && out[i].runId == IdOf(rs[i]) != "" {
      ConvertAllAt(rs, i);
    }
    forall i, j | 0 <= i < j < |out| ensures out[i].runId != out[j].runId {
      IdsAt(rs, i);
      IdsAt(rs, j);
      NoDupAt(IdsOf(rs), i, j);
    }
    forall i | 0 < i < |out|
      ensures out[i].parent.Some? && exists j :: 0 <= j < i && out[j].runId == out[i].parent.value
    {
      var j :| 0 <= j < i && IdOf(rs[j]) == rs[i].parent.id;
      assert out[j].runId == IdOf(rs[j]);
      assert Convert(rs[i]) == Some(out[i]);
    }
  }

  /** A converted tree of any response never fails the duplicate, root and parent checks. */
  lemma SingleTreePassesChecks(f: Forest, keys: seq<string>, x: string)
    requires Linked(f, keys) && Grounded(f.byId, x, 0)
    requires ConvertAll(PreOrder(TreeOf(f, keys, x, 0))).Some?
    ensures var out := ConvertAll(PreOrder(TreeOf(f, keys, x, 0))).value;
            PreOrdered(out) && RootCountOf(out) == 1 && ParentsKnown(out)
  {
    TreeParentsFirst(f, keys, x);
    ConvertedPreOrdered(PreOrder(TreeOf(f, keys, x, 0)));
    OneRoot(ConvertAll(PreOrder(TreeOf(f, keys, x, 0))).value);
  }

  lemma {:induction false} SameRoots(rs: seq<SourceRun>, events: seq<Event>)
    requires |events| == |rs| && forall i | 0 <= i < |rs| :: events[i].parent == rs[i].parent
    ensures Roots(events) == RootCountOf(rs)
  {
    if rs != [] {
      SameRoots(rs[..|rs| - 1], events[..|events| - 1]);
    }
  }

  /** The times of a run tree: no run ends before it starts or starts before its parent. */
  ghost predicate TimesOK(rs: seq<SourceRun>) {
    && (forall i | 0 <= i < |rs| && rs[i].end.Some? :: rs[i].start <= rs[i].end.value)
    && forall i, j | 0 <= i < |rs| && 0 <= j < |rs| && rs[i].parent == Some(rs[j].runId) :: rs[j].start <= rs[i].start
  }

  lemma NoTimeProblem(rs: seq<SourceRun>, events: seq<Event>, allowlist: set<string>, i: nat)
    requires PreOrdered(rs) && MappedEvents(rs, events, allowlist) && TimesOK(rs) && i < |events|
    ensures ProblemAt(events, allowlist, i).None?
  {
    assert !Seen(events, i, events[i].id);
    if i > 0 {
      var k :| 0 <= k < i && rs[k].runId == rs[i].parent.value;
      assert events[k].id == events[i].parent.value;
      assert Seen(events, i + 1, events[i].parent.value);
      forall j | 0 <= j <= i && events[j].id == events[i].parent.value
        ensures !(events[i].start < events[j].start)
      {
        assert rs[i].parent == Some(rs[j].runId);
      }
    }
  }

  lemma AcceptedParentTime(rs: seq<SourceRun>, events: seq<Event>, allowlist: set<string>, i: nat, j: nat)
    requires PreOrdered(rs) && MappedEvents(rs, events, allowlist) && Accepted(events, allowlist)
    requires i < |rs| && j < |rs| && rs[i].parent == Some(rs[j].runId)
    ensures rs[j].start <= rs[i].start
  {
    var k :| 0 <= k < i && rs[k].runId == rs[i].parent.value;
    assert k == j;
    AcceptedFrom(events, allowlist, 0, i);
    assert events[k].id == events[i].parent.value;
  }

  lemma AcceptedEndTime(rs: seq<SourceRun>, events: seq<Event>, allowlist: set<string>, i: nat)
    requires MappedEvents(rs, events, allowlist) && Accepted(events, allowlist)
    requires i < |rs| && rs[i].end.Some?
    ensures rs[i].start <= rs[i].end.value
  {
    AcceptedFrom(events, allowlist, 0, i);
  }

  /** The event tree mapped from a pre-ordered tree is accepted exactly when its times are consistent. */
  lemma TreeAcceptedIffTimes(rs: seq<SourceRun>, events: seq<Event>, allowlist: set<string>)
    requires PreOrdered(rs) && RootCountOf(rs) == 1 && MappedEvents(rs, events, allowlist)
    ensures Accepted(events, allowlist) <==> TimesOK(rs)
  {
    if TimesOK(rs) {
      SameRoots(rs, events);
      forall i | 0 <= i < |events| ensures ProblemAt(events, allowlist, i).None? {
        NoTimeProblem(rs, events, allowlist, i);
      }
      NoProblemAccepted(events, allowlist, 0);
    }
    if Accepted(events, allowlist) {
      forall i | 0 <= i < |rs| && rs[i].end.Some? ensures rs[i].start <= rs[i].end.value {
        AcceptedEndTime(rs, events, allowlist, i);
      }
      forall i, j | 0 <= i < |rs| && 0 <= j < |rs| && rs[i].parent == Some(rs[j].runId)
        ensures rs[j].start <= rs[i].start
      {
        AcceptedParentTime(rs, events, allowlist, i, j);
      }
    }
  }
}
