/** Identifiers with a total order, and the stable sort the engines rely on.

    The program orders UUIDs by their canonical text.  That text is a fixed-width
    lower-case hexadecimal rendering, so its order is the order of the 128-bit values;
    a UUID is therefore modelled by its value. */
module Ordering {

  type Uuid = nat

  lemma Assoc<T>(a: seq<T>, b: seq<T>, c: seq<T>)
    ensures (a + b) + c == a + (b + c)
  {
  }

  datatype Option<+T> = None | Some(value: T)

  /** Keys never decrease from one element to a later one. */
  ghost predicate SortedBy<T(!new)>(key: T -> nat, s: seq<T>) {
    s == [] || ((forall x | x in s[1..] :: key(s[0]) <= key(x)) && SortedBy(key, s[1..]))
  }

  /** Puts `x` in front of every element whose key is not smaller. */
  function Insert<T>(key: T -> nat, x: T, s: seq<T>): seq<T> {
    if s == [] || key(x) <= key(s[0]) then [x] + s
    else [s[0]] + Insert(key, x, s[1..])
  }

  /** The stable sort: equal keys keep their input order. */
  function StableSort<T>(key: T -> nat, s: seq<T>): seq<T> {
    if s == [] then [] else Insert(key, s[0], StableSort(key, s[1..]))
  }

  /** The elements with key `k`, in order. */
  function OfKey<T>(key: T -> nat, k: nat, s: seq<T>): seq<T> {
    if s == [] then []
    else (if key(s[0]) == k then [s[0]] else []) + OfKey(key, k, s[1..])
  }

  lemma {:induction false} InsertPermutes<T>(key: T -> nat, x: T, s: seq<T>)
    ensures multiset(Insert(key, x, s)) == multiset{x} + multiset(s)
  {
    if s == [] || key(x) <= key(s[0]) {
    } else {
      InsertPermutes(key, x, s[1..]);
      assert s == [s[0]] + s[1..];
    }
  }

  lemma {:induction false} InsertMembers<T>(key: T -> nat, x: T, s: seq<T>, y: T)
    ensures y in Insert(key, x, s) <==> y == x || y in s
  {
    if s == [] || key(x) <= key(s[0]) {
    } else {
      InsertMembers(key, x, s[1..], y);
      assert s == [s[0]] + s[1..];
    }
  }

  lemma {:induction false} InsertSorted<T(!new)>(key: T -> nat, x: T, s: seq<T>)
    requires SortedBy(key, s)
    ensures SortedBy(key, Insert(key, x, s))
  {
    if s == [] {
    } else if key(x) <= key(s[0]) {
      assert ([x] + s)[1..] == s;
      assert forall y | y in s :: y == s[0] || y in s[1..];
    } else {
      InsertSorted(key, x, s[1..]);
      var t := Insert(key, x, s[1..]);
      assert ([s[0]] + t)[1..] == t;
      forall y | y in t ensures key(s[0]) <= key(y) {
        InsertMembers(key, x, s[1..], y);
      }
    }
  }

  /** Sorting yields a sorted permutation. */
  lemma {:induction false} StableSortSorts<T(!new)>(key: T -> nat, s: seq<T>)
    ensures SortedBy(key, StableSort(key, s))
    ensures multiset(StableSort(key, s)) == multiset(s)
  {
    if s == [] {
    } else {
      StableSortSorts(key, s[1..]);
      InsertSorted(key, s[0], StableSort(key, s[1..]));
      InsertPermutes(key, s[0], StableSort(key, s[1..]));
      assert s == [s[0]] + s[1..];
    }
  }

  lemma OfKeyCons<T>(key: T -> nat, k: nat, x: T, s: seq<T>)
    ensures OfKey(key, k, [x] + s) == (if key(x) == k then [x] else []) + OfKey(key, k, s)
  {
    assert ([x] + s)[1..] == s;
  }

  lemma {:induction false} InsertOfKey<T>(key: T -> nat, k: nat, x: T, s: seq<T>)
    ensures OfKey(key, k, Insert(key, x, s)) == (if key(x) == k then [x] else []) + OfKey(key, k, s)
  {
    if s == [] || key(x) <= key(s[0]) {
      OfKeyCons(key, k, x, s);
    } else {
      var rest := Insert(key, x, s[1..]);
      InsertOfKey(key, k, x, s[1..]);
      OfKeyCons(key, k, s[0], rest);
      assert OfKey(key, k, s) == (if key(s[0]) == k then [s[0]] else []) + OfKey(key, k, s[1..]);
    }
  }

  /** Stability: sorting does not reorder elements of one key. */
  lemma {:induction false} StableSortStable<T>(key: T -> nat, k: nat, s: seq<T>)
    ensures OfKey(key, k, StableSort(key, s)) == OfKey(key, k, s)
  {
    if s == [] {
    } else {
      StableSortStable(key, k, s[1..]);
      InsertOfKey(key, k, s[0], StableSort(key, s[1..]));
    }
  }

  lemma SortedHeadLeast<T(!new)>(key: T -> nat, s: seq<T>, x: T)
    requires SortedBy(key, s) && x in s
    ensures key(s[0]) <= key(x)
  {
    assert x == s[0] || x in s[1..];
  }

  /** The index form of sortedness. */
  lemma {:induction false} SortedAt<T(!new)>(key: T -> nat, s: seq<T>, i: nat, j: nat)
    requires SortedBy(key, s) && i <= j < |s|
    ensures key(s[i]) <= key(s[j])
  {
    if i == 0 {
      SortedHeadLeast(key, s, s[j]);
    } else {
      SortedAt(key, s[1..], i - 1, j - 1);
    }
  }

  lemma SameMembers<T>(a: seq<T>, b: seq<T>, x: T)
    requires multiset(a) == multiset(b) && x in a
    ensures x in b
  {
    assert x in multiset(a);
    assert x in multiset(b);
  }

  lemma TailMultiset<T>(s: seq<T>)
    requires s != []
    ensures multiset(s[1..]) == multiset(s) - multiset{s[0]}
  {
    assert s == [s[0]] + s[1..];
  }

  /** Two sorted arrangements of one multiset agree when keys identify elements. */
  lemma {:induction false} SortedUnique<T(!new)>(key: T -> nat, a: seq<T>, b: seq<T>)
    requires SortedBy(key, a) && SortedBy(key, b)
    requires multiset(a) == multiset(b)
    requires forall x, y | x in a && y in a :: key(x) == key(y) ==> x == y
    ensures a == b
    decreases |a|
  {
    assert |a| == |multiset(a)| == |multiset(b)| == |b|;
    if a == [] {
    } else {
      SortedHeadsAgree(key, a, b);
      TailMultiset(a);
      TailMultiset(b);
      SortedUnique(key, a[1..], b[1..]);
      assert a == [a[0]] + a[1..] && b == [b[0]] + b[1..];
    }
  }

  lemma SortedHeadsAgree<T(!new)>(key: T -> nat, a: seq<T>, b: seq<T>)
    requires SortedBy(key, a) && SortedBy(key, b) && a != [] && b != []
    requires multiset(a) == multiset(b)
    requires forall x, y | x in a && y in a :: key(x) == key(y) ==> x == y
    ensures a[0] == b[0]
  {
    SameMembers(b, a, b[0]);
    SameMembers(a, b, a[0]);
    SortedHeadLeast(key, a, b[0]);
    SortedHeadLeast(key, b, a[0]);
  }

  lemma LeastExists(s: set<nat>)
    requires s != {}
    ensures exists m | m in s :: forall y | y in s :: m <= y
  {
    var m :| m in s;
    while exists y :: y in s && y < m
      invariant m in s
      decreases m
    {
      var y :| y in s && y < m;
      m := y;
    }
  }

  /** The least member of a set. */
  function Least(s: set<nat>): (m: nat)
    requires s != {}
    ensures m in s && forall y | y in s :: m <= y
  {
    LeastExists(s);
    var m :| m in s && forall y | y in s :: m <= y;
    m
  }

  /** The members of a set in increasing order. */
  function SortedSet(s: set<nat>): seq<nat> {
    if s == {} then [] else [Least(s)] + SortedSet(s - {Least(s)})
  }

  ghost predicate Increasing(s: seq<nat>) {
    s == [] || ((forall x | x in s[1..] :: s[0] < x) && Increasing(s[1..]))
  }

  lemma {:induction false} SortedSetMembers(s: set<nat>, x: nat)
    ensures x in SortedSet(s) <==> x in s
    decreases |s|
  {
    if s == {} {
    } else {
      SortedSetMembers(s - {Least(s)}, x);
    }
  }

  lemma {:induction false} SortedSetIncreasing(s: set<nat>)
    ensures Increasing(SortedSet(s)) && |SortedSet(s)| == |s|
    decreases |s|
  {
    if s == {} {
    } else {
      var rest := s - {Least(s)};
      SortedSetIncreasing(rest);
      assert SortedSet(s)[1..] == SortedSet(rest);
      forall x | x in SortedSet(rest) ensures Least(s) < x {
        SortedSetMembers(rest, x);
      }
    }
  }

  lemma {:induction false} IncreasingAt(s: seq<nat>, i: nat, j: nat)
    requires Increasing(s) && i < j < |s|
    ensures s[i] < s[j]
  {
    if i == 0 {
      assert s[j] in s[1..];
    } else {
      IncreasingAt(s[1..], i - 1, j - 1);
    }
  }

  /** `a` is `b` with some elements left out. */
  ghost predicate Subsequence<T(!new)>(a: seq<T>, b: seq<T>) {
    a == []
    || (b != [] && ((a[0] == b[0] && Subsequence(a[1..], b[1..])) || Subsequence(a, b[1..])))
  }

  lemma SubsequenceStep<T(!new)>(a: seq<T>, b: seq<T>, x: T)
    requires Subsequence(a, b)
    ensures Subsequence([x] + a, [x] + b) && Subsequence(a, [x] + b)
  {
    assert ([x] + a)[1..] == a && ([x] + b)[1..] == b;
  }
}
