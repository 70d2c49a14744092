/** Assembly of a flat provider response into run trees, and their flattening into pre-order. */
module RunTree {
  import opened Ordering

  /** The parent reference of a run: missing, a text id, or some other value. */
  datatype Link = NoParent | ParentId(id: string) | NotText

  /** One provider run.  `id`, `name` and `start` are absent when the response holds no usable text. */
  datatype Run = Run(id: Option<string>, parent: Link, name: Option<string>, start: Option<int>, end: Option<int>,
                     endMalformed: bool)

  datatype Tree = Node(run: Run, children: seq<Tree>)

  // ----- the indexed response -----

  /** The runs with a text id; a later run replaces an earlier one with the same id. */
  function ById(runs: seq<Run>): map<string, Run> {
    if runs == [] then map[]
    else
      var front, last := ById(runs[..|runs| - 1]), runs[|runs| - 1];
      if last.id.Some? then front[last.id.value := last] else front
  }

  /** The ids in the order in which the dictionary first met them. */
  function Keys(runs: seq<Run>): seq<string> {
    if runs == [] then []
    else
      var front, last := Keys(runs[..|runs| - 1]), runs[|runs| - 1];
      if last.id.Some? && last.id.value !in front then front + [last.id.value] else front
  }

  /** The keys whose run names `x` as its parent, in order. */
  function ChildrenOf(byId: map<string, Run>, keys: seq<string>, x: string): seq<string>
    requires forall k | k in keys :: k in byId
  {
    if keys == [] then []
    else
      var front, k := ChildrenOf(byId, keys[..|keys| - 1], x), keys[|keys| - 1];
      if byId[k].parent == ParentId(x) then front + [k] else front
  }

  function RootsOf(byId: map<string, Run>, keys: seq<string>): seq<string>
    requires forall k | k in keys :: k in byId
  {
    if keys == [] then []
    else
      var front, k := RootsOf(byId, keys[..|keys| - 1]), keys[|keys| - 1];
      if byId[k].parent.NoParent? then front + [k] else front
  }

  /** The linked dictionaries: every run with its child list, and the parentless runs. */
  datatype Forest = Forest(byId: map<string, Run>, children: map<string, seq<string>>, roots: seq<string>)

  ghost predicate Linked(f: Forest, keys: seq<string>) {
    && (forall k :: k in keys <==> k in f.byId)
    && NoDup(keys)
    && f.children.Keys == f.byId.Keys
    && (forall x | x in f.byId :: f.byId[x].id == Some(x) && f.children[x] == ChildrenOf(f.byId, keys, x))
    && f.roots == RootsOf(f.byId, keys)
  }

  ghost predicate NoDup<T(!new)>(s: seq<T>) { s == [] || (s[0] !in s[1..] && NoDup(s[1..])) }

  lemma {:induction false} NoDupConcat<T(!new)>(a: seq<T>, b: seq<T>)
    requires NoDup(a) && NoDup(b) && forall x | x in a :: x !in b
    ensures NoDup(a + b)
  {
    if a == [] {
      assert a + b == b;
    } else {
      NoDupConcat(a[1..], b);
      assert (a + b)[1..] == a[1..] + b;
    }
  }

  lemma {:induction false} KeysFacts(runs: seq<Run>)
    ensures NoDup(Keys(runs))
    ensures forall k :: k in Keys(runs) <==> k in ById(runs)
    ensures forall k | k in ById(runs) :: ById(runs)[k].id == Some(k) && ById(runs)[k] in runs
  {
    if runs == [] {
    } else {
      var front, last := runs[..|runs| - 1], runs[|runs| - 1];
      KeysFacts(front);
      assert runs == front + [last];
      if last.id.Some? && last.id.value !in Keys(front) {
        NoDupConcat(Keys(front), [last.id.value]);
      }
    }
  }

  // ----- the order of the response -----

  /** The dictionary holds, for each text id, the last run of the response with that id. */
  ghost predicate HoldsLast(byId: map<string, Run>, runs: seq<Run>) {
    && (forall i | 0 <= i < |runs| && runs[i].id.Some? :: runs[i].id.value in byId)
    && (forall x | x in byId :: LastAt(runs, x, byId[x]))
  }

  ghost predicate LastAt(runs: seq<Run>, x: string, r: Run) {
    exists i :: 0 <= i < |runs| && runs[i] == r && r.id == Some(x) && forall j | i < j < |runs| :: runs[j].id != Some(x)
  }

  /** The response lists a run with id `x` before any with id `y`. */
  ghost predicate MetBefore(runs: seq<Run>, x: string, y: string) {
    exists i :: 0 <= i < |runs| && runs[i].id == Some(x) && forall j | 0 <= j <= i :: runs[j].id != Some(y)
  }

  ghost predicate Precedes(s: seq<string>, x: string, y: string) {
    exists i, j :: 0 <= i < j < |s| && s[i] == x && s[j] == y
  }

  lemma LastAtSnoc(runs: seq<Run>, last: Run, x: string, r: Run)
    requires LastAt(runs, x, r) && last.id != Some(x)
    ensures LastAt(runs + [last], x, r)
  {
    var i :| 0 <= i < |runs| && runs[i] == r && forall j | i < j < |runs| :: runs[j].id != Some(x);
    assert (runs + [last])[i] == r;
  }

  lemma {:induction false} ByIdHoldsLast(runs: seq<Run>)
    ensures HoldsLast(ById(runs), runs)
  {
    if runs == [] {
    } else {
      var front, last := runs[..|runs| - 1], runs[|runs| - 1];
      ByIdHoldsLast(front);
      forall x | x in ById(runs) ensures LastAt(runs, x, ById(runs)[x]) {
        if last.id == Some(x) {
          assert runs[|runs| - 1] == ById(runs)[x];
        } else {
          LastAtSnoc(front, last, x, ById(front)[x]);
          assert front + [last] == runs;
        }
      }
    }
  }

  lemma PrecedesSnoc(s: seq<string>, x: string, y: string, z: string)
    ensures Precedes(s, x, y) ==> Precedes(s + [z], x, y)
    ensures x in s ==> Precedes(s + [z], x, z)
  {
    var t := s + [z];
    if Precedes(s, x, y) {
      var i, j :| 0 <= i < j < |s| && s[i] == x && s[j] == y;
      assert t[i] == x && t[j] == y;
    }
    if x in s {
      var i :| 0 <= i < |s| && s[i] == x;
      assert t[i] == x && t[|s|] == z;
    }
  }

  /** Ids are keyed in the order in which the response first lists them. */
  lemma {:induction false} KeysInOrder(runs: seq<Run>, x: string, y: string)
    requires MetBefore(runs, x, y) && y in ById(runs)
    ensures Precedes(Keys(runs), x, y)
  {
    var front, last := runs[..|runs| - 1], runs[|runs| - 1];
    var i :| 0 <= i < |runs| && runs[i].id == Some(x) && forall j | 0 <= j <= i :: runs[j].id != Some(y);
    KeysFacts(front);
    ByIdHoldsLast(front);
    if i < |front| {
      assert front[i].id == Some(x);
      PrecedesSnoc(Keys(front), x, y, y);
      if y in ById(front) {
        KeysInOrder(front, x, y);
        if last.id.Some? { PrecedesSnoc(Keys(front), x, y, last.id.value); }
      }
    }
  }

  lemma PrefixStep(byId: map<string, Run>, keys: seq<string>, i: nat, x: string)
    requires i < |keys| && forall k | k in keys :: k in byId
    ensures var front, k := ChildrenOf(byId, keys[..i], x), keys[i];
            ChildrenOf(byId, keys[..i + 1], x) == if byId[k].parent == ParentId(x) then front + [k] else front
  {
    assert keys[..i + 1][..i] == keys[..i];
  }

  lemma RootStep(byId: map<string, Run>, keys: seq<string>, i: nat)
    requires i < |keys| && forall k | k in keys :: k in byId
    ensures RootsOf(byId, keys[..i + 1])
         == RootsOf(byId, keys[..i]) + if byId[keys[i]].parent.NoParent? then [keys[i]] else []
  {
    assert keys[..i + 1][..i] == keys[..i];
  }

  /** The child lists after the first `i` keys were linked. */
  ghost predicate ChildrenSoFar(byId: map<string, Run>, keys: seq<string>, children: map<string, seq<string>>)
    requires forall k | k in keys :: k in byId
  {
    children.Keys == byId.Keys && forall x | x in byId :: children[x] == ChildrenOf(byId, keys, x)
  }

  lemma LinkStep(byId: map<string, Run>, keys: seq<string>, i: nat, children: map<string, seq<string>>)
    requires i < |keys| && forall k | k in keys :: k in byId
    requires ChildrenSoFar(byId, keys[..i], children)
    ensures var k := keys[i];
            ChildrenSoFar(byId, keys[..i + 1],
                          if byId[k].parent.ParentId? && byId[k].parent.id in byId
                          then children[byId[k].parent.id := children[byId[k].parent.id] + [k]] else children)
  {
    var k := keys[i];
    var children' := if byId[k].parent.ParentId? && byId[k].parent.id in byId
                     then children[byId[k].parent.id := children[byId[k].parent.id] + [k]] else children;
    forall x | x in byId ensures children'[x] == ChildrenOf(byId, keys[..i + 1], x) {
      PrefixStep(byId, keys, i, x);
    }
  }

  lemma {:induction false} ChildMember(byId: map<string, Run>, keys: seq<string>, x: string, k: string)
    requires forall j | j in keys :: j in byId
    ensures k in ChildrenOf(byId, keys, x) <==> k in keys && byId[k].parent == ParentId(x)
  {
    if keys == [] {
    } else {
      ChildMember(byId, keys[..|keys| - 1], x, k);
      assert keys == keys[..|keys| - 1] + [keys[|keys| - 1]];
    }
  }

  lemma {:induction false} RootMember(byId: map<string, Run>, keys: seq<string>, k: string)
    requires forall j | j in keys :: j in byId
    ensures k in RootsOf(byId, keys) <==> k in keys && byId[k].parent.NoParent?
  {
    if keys == [] {
    } else {
      RootMember(byId, keys[..|keys| - 1], k);
      assert keys == keys[..|keys| - 1] + [keys[|keys| - 1]];
    }
  }

  lemma {:induction false} NoDupFront<T(!new)>(s: seq<T>)
    requires NoDup(s) && s != []
    ensures NoDup(s[..|s| - 1]) && s[|s| - 1] !in s[..|s| - 1]
  {
    if |s| == 1 {
    } else {
      NoDupFront(s[1..]);
      var front := s[..|s| - 1];
      assert front[1..] == s[1..][..|s| - 2];
      assert s[|s| - 1] in s[1..];
    }
  }

  lemma {:induction false} ChildrenNoDup(byId: map<string, Run>, keys: seq<string>, x: string)
    requires NoDup(keys) && forall j | j in keys :: j in byId
    ensures NoDup(ChildrenOf(byId, keys, x))
  {
    if keys == [] {
    } else {
      var front, k := keys[..|keys| - 1], keys[|keys| - 1];
      NoDupFront(keys);
      ChildrenNoDup(byId, front, x);
      ChildMember(byId, front, x, k);
      if byId[k].parent == ParentId(x) {
        NoDupConcat(ChildrenOf(byId, front, x), [k]);
      }
    }
  }

  lemma {:induction false} RootsNoDup(byId: map<string, Run>, keys: seq<string>)
    requires NoDup(keys) && forall j | j in keys :: j in byId
    ensures NoDup(RootsOf(byId, keys))
  {
    if keys == [] {
    } else {
      var front, k := keys[..|keys| - 1], keys[|keys| - 1];
      NoDupFront(keys);
      RootsNoDup(byId, front);
      RootMember(byId, front, k);
      if byId[k].parent.NoParent? {
        NoDupConcat(RootsOf(byId, front), [k]);
      }
    }
  }

  lemma {:induction false} PickedInOrder(byId: map<string, Run>, keys: seq<string>, p: string, x: string, y: string)
    requires (forall k | k in keys :: k in byId) && Precedes(keys, x, y)
    ensures byId[x].parent == byId[y].parent == ParentId(p) ==> Precedes(ChildrenOf(byId, keys, p), x, y)
    ensures byId[x].parent.NoParent? && byId[y].parent.NoParent? ==> Precedes(RootsOf(byId, keys), x, y)
  {
    var front, last := keys[..|keys| - 1], keys[|keys| - 1];
    var i, j :| 0 <= i < j < |keys| && keys[i] == x && keys[j] == y;
    if j < |front| {
      assert front[i] == x && front[j] == y;
      PickedInOrder(byId, front, p, x, y);
      PrecedesSnoc(ChildrenOf(byId, front, p), x, y, last);
      PrecedesSnoc(RootsOf(byId, front), x, y, last);
    } else {
      assert x in front by { assert front[i] == x; }
      ChildMember(byId, front, p, x);
      RootMember(byId, front, x);
      PrecedesSnoc(ChildrenOf(byId, front, p), x, y, y);
      PrecedesSnoc(RootsOf(byId, front), x, y, y);
    }
  }

  /** Runs with one parent, and parentless runs, are listed in the order in which the response first lists them. */
  ghost predicate ListedInOrder(f: Forest, runs: seq<Run>) {
    forall x, y | x in f.byId && y in f.byId && MetBefore(runs, x, y) ::
      && (f.byId[x].parent.NoParent? && f.byId[y].parent.NoParent? ==> Precedes(f.roots, x, y))
      && (forall p | p in f.children && f.byId[x].parent == f.byId[y].parent == ParentId(p) ::
            Precedes(f.children[p], x, y))
  }

  lemma ForestInOrder(f: Forest, runs: seq<Run>)
    requires f.byId == ById(runs) && Linked(f, Keys(runs))
    ensures HoldsLast(f.byId, runs) && ListedInOrder(f, runs)
  {
    ByIdHoldsLast(runs);
    forall x, y | x in f.byId && y in f.byId && MetBefore(runs, x, y)
      ensures f.byId[x].parent.NoParent? && f.byId[y].parent.NoParent? ==> Precedes(f.roots, x, y)
      ensures forall p | p in f.children && f.byId[x].parent == f.byId[y].parent == ParentId(p) ::
                Precedes(f.children[p], x, y)
    {
      KeysInOrder(runs, x, y);
      PickedInOrder(f.byId, Keys(runs), x, x, y);
      forall p | p in f.children && f.byId[x].parent == f.byId[y].parent == ParentId(p)
        ensures Precedes(f.children[p], x, y)
      {
        PickedInOrder(f.byId, Keys(runs), p, x, y);
      }
    }
  }

  lemma ForestAssembled(f: Forest, runs: seq<Run>)
    requires f.byId == ById(runs) && (forall k | k in Keys(runs) :: k in f.byId)
    requires ChildrenSoFar(f.byId, Keys(runs), f.children) && f.roots == RootsOf(f.byId, Keys(runs))
    ensures Linked(f, Keys(runs)) && HoldsLast(f.byId, runs) && ListedInOrder(f, runs)
  {
    KeysFacts(runs);
    ForestInOrder(f, runs);
  }

  /** Links every run to its parent; runs whose parent is missing or is not text are dropped. */
  method TreesFromFlatRuns(runs: seq<Run>) returns (forest: Forest)
    ensures forest.byId == ById(runs) && Linked(forest, Keys(runs))
    ensures HoldsLast(forest.byId, runs) && ListedInOrder(forest, runs)
  {
    var byId, keys := ById(runs), Keys(runs);
    KeysFacts(runs);
    var children := map k | k in byId :: [];
    var roots := [];
    for i := 0 to |keys|
      invariant ChildrenSoFar(byId, keys[..i], children)
      invariant roots == RootsOf(byId, keys[..i])
    {
      var k := keys[i];
      LinkStep(byId, keys, i, children);
      RootStep(byId, keys, i);
      match byId[k].parent {
        case ParentId(p) =>
          if p in byId {
            children := children[p := children[p] + [k]];
          }
        case NoParent =>
          roots := roots + [k];
        case NotText =>
      }
    }
    assert keys[..|keys|] == keys;
    forest := Forest(byId, children, roots);
    ForestAssembled(forest, runs);
  }

  // ----- runs whose parent chain ends at a parentless run -----

  /** `n` parent steps lead from `x` to a parentless run. */
  ghost predicate Grounded(byId: map<string, Run>, x: string, n: nat)
    decreases n
  {
    && x in byId
    && match byId[x].parent
       case NoParent => n == 0
       case ParentId(p) => n > 0 && Grounded(byId, p, n - 1)
       case NotText => false
  }

  lemma {:induction false} DepthUnique(byId: map<string, Run>, x: string, m: nat, n: nat)
    requires Grounded(byId, x, m) && Grounded(byId, x, n)
    ensures m == n
    decreases m
  {
    if m > 0 && n > 0 {
      DepthUnique(byId, byId[x].parent.id, m - 1, n - 1);
    }
  }

  /** The run and its ancestors. */
  ghost function Line(byId: map<string, Run>, x: string, n: nat): set<string>
    requires Grounded(byId, x, n)
    decreases n
  {
    if n == 0 then {x} else {x} + Line(byId, byId[x].parent.id, n - 1)
  }

  lemma {:induction false} LineDepth(byId: map<string, Run>, x: string, n: nat, y: string) returns (m: nat)
    requires Grounded(byId, x, n) && y in Line(byId, x, n)
    ensures m <= n && Grounded(byId, y, m)
    decreases n
  {
    if y == x {
      m := n;
    } else {
      m := LineDepth(byId, byId[x].parent.id, n - 1, y);
    }
  }

  lemma {:induction false} LineSize(byId: map<string, Run>, x: string, n: nat)
    requires Grounded(byId, x, n)
    ensures Line(byId, x, n) <= byId.Keys && |Line(byId, x, n)| == n + 1
    decreases n
  {
    if n == 0 {
    } else {
      var p := byId[x].parent.id;
      LineSize(byId, p, n - 1);
      if x in Line(byId, p, n - 1) {
        var m := LineDepth(byId, p, n - 1, x);
        DepthUnique(byId, x, m, n);
        assert false;
      }
    }
  }

  /** A chain visits each run at most once, so it is shorter than the response. */
  lemma DepthBound(byId: map<string, Run>, x: string, n: nat)
    requires Grounded(byId, x, n)
    ensures n < |byId|
  {
    LineSize(byId, x, n);
    SubsetSize(Line(byId, x, n), byId.Keys);
  }

  lemma {:induction false} SubsetSize<T>(a: set<T>, b: set<T>)
    requires a <= b
    ensures |a| <= |b|
  {
    assert b == a + (b - a);
  }

  // ----- the trees -----

  lemma KidsGrounded(f: Forest, keys: seq<string>, x: string, n: nat)
    requires Linked(f, keys) && Grounded(f.byId, x, n)
    ensures forall c | c in f.children[x] :: Grounded(f.byId, c, n + 1)
  {
    forall c | c in f.children[x] ensures Grounded(f.byId, c, n + 1) {
      ChildMember(f.byId, keys, x, c);
    }
  }

  /** The nested run tree below `x`, whose depth is `n`. */
  function TreeOf(f: Forest, ghost keys: seq<string>, x: string, ghost n: nat): Tree
    requires Linked(f, keys) && Grounded(f.byId, x, n)
    decreases |f.byId| - n, 0, 0
  {
    KidsGrounded(f, keys, x, n);
    DepthBound(f.byId, x, n);
    Node(f.byId[x], TreesOf(f, keys, f.children[x], n + 1))
  }

  function TreesOf(f: Forest, ghost keys: seq<string>, xs: seq<string>, ghost n: nat): seq<Tree>
    requires Linked(f, keys) && forall x | x in xs :: Grounded(f.byId, x, n)
    decreases |f.byId| - n, 1, |xs|
  {
    if xs == [] then [] else [TreeOf(f, keys, xs[0], n)] + TreesOf(f, keys, xs[1..], n)
  }

  function PreOrder(t: Tree): seq<Run>
    decreases t, 0
  {
    [t.run] + PreOrders(t.children)
  }

  function PreOrders(ts: seq<Tree>): seq<Run>
    decreases ts
  {
    if ts == [] then [] else PreOrder(ts[0]) + PreOrders(ts[1..])
  }

  function Size(t: Tree): nat
    decreases t, 0
  {
    1 + Sizes(t.children)
  }

  function Sizes(ts: seq<Tree>): nat
    decreases ts
  {
    if ts == [] then 0 else Size(ts[0]) + Sizes(ts[1..])
  }

  lemma {:induction false} ConcatTrees(a: seq<Tree>, b: seq<Tree>)
    ensures PreOrders(a + b) == PreOrders(a) + PreOrders(b)
    ensures Sizes(a + b) == Sizes(a) + Sizes(b)
  {
    if a == [] {
      assert a + b == b;
    } else {
      ConcatTrees(a[1..], b);
      assert (a + b)[0] == a[0] && (a + b)[1..] == a[1..] + b;
      Assoc(PreOrder(a[0]), PreOrders(a[1..]), PreOrders(b));
    }
  }

  /** Flattens a tree with an explicit worklist: children go to the front of the list. */
  method FlattenRunTree(tree: Tree) returns (flattened: seq<Run>)
    ensures flattened == PreOrder(tree)
  {
    flattened := [];
    var pending := [tree];
    assert pending[1..] == [];
    while pending != []
      invariant flattened + PreOrders(pending) == PreOrder(tree)
      decreases Sizes(pending)
    {
      var current := pending[0];
      assert Sizes(pending) == 1 + Sizes(current.children) + Sizes(pending[1..]);
      flattened := flattened + [current.run];
      ConcatTrees(current.children, pending[1..]);
      pending := current.children + pending[1..];
    }
  }
}
