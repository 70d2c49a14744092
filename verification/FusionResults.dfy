/** What the fused order guarantees. */
module FusionResults {
  import opened Ordering
  import opened Fusion

  /** One chunk comes before another for its score, or at equal scores for its id. */
  lemma EarlierOutranks(lists: seq<seq<Hit>>, k: nat, i: nat, j: nat)
    requires k >= 1 && i < j < |FusedOrder(lists, k)|
    ensures FusedOrder(lists, k)[i] != FusedOrder(lists, k)[j]
    ensures FusedAt(lists, k, i).score >= FusedAt(lists, k, j).score
    ensures FusedAt(lists, k, i).score == FusedAt(lists, k, j).score ==>
              FusedOrder(lists, k)[i] < FusedOrder(lists, k)[j]
  {
    RankingSorted(Ids(Entries(lists)), ScoreMap(lists, k), i, j);
  }

  /** The output holds exactly the retrieved chunks. */
  lemma FusedOrderComplete(lists: seq<seq<Hit>>, k: nat, x: Uuid)
    requires k >= 1
    ensures x in FusedOrder(lists, k) <==> x in Ids(Entries(lists))
    ensures |FusedOrder(lists, k)| == |Ids(Entries(lists))|
  {
    RankingMembers(Ids(Entries(lists)), ScoreMap(lists, k), x);
  }

  // ----- scores add up over lists -----

  lemma {:induction false} ScoreAppend(es: seq<Entry>, fs: seq<Entry>, key: Uuid, k: nat)
    requires k >= 1
    ensures Score(es + fs, key, k) == Score(es, key, k) + Score(fs, key, k)
    ensures Ids(es + fs) == Ids(es) + Ids(fs)
  {
    if fs == [] {
      assert es + fs == es;
    } else {
      ScoreAppend(es, fs[..|fs| - 1], key, k);
      assert (es + fs)[..|es + fs| - 1] == es + fs[..|fs| - 1];
    }
  }

  function ListScore(hits: seq<Hit>, key: Uuid, k: nat): real
    requires k >= 1
  {
    Score(Enumerate(hits), key, k)
  }

  function TotalScore(lists: seq<seq<Hit>>, key: Uuid, k: nat): real
    requires k >= 1
  {
    if lists == [] then 0.0 else TotalScore(lists[..|lists| - 1], key, k) + ListScore(lists[|lists| - 1], key, k)
  }

  function AllIds(lists: seq<seq<Hit>>): set<Uuid> {
    if lists == [] then {} else AllIds(lists[..|lists| - 1]) + Ids(Enumerate(lists[|lists| - 1]))
  }

  lemma {:induction false} ScoreIsTotal(lists: seq<seq<Hit>>, key: Uuid, k: nat)
    requires k >= 1
    ensures Score(Entries(lists), key, k) == TotalScore(lists, key, k)
    ensures Ids(Entries(lists)) == AllIds(lists)
  {
    if lists != [] {
      ScoreIsTotal(lists[..|lists| - 1], key, k);
      ScoreAppend(Entries(lists[..|lists| - 1]), Enumerate(lists[|lists| - 1]), key, k);
    }
  }

  function Without(lists: seq<seq<Hit>>, i: nat): seq<seq<Hit>>
    requires i < |lists|
  {
    lists[..i] + lists[i + 1..]
  }

  lemma WithoutMultiset(lists: seq<seq<Hit>>, i: nat)
    requires i < |lists|
    ensures multiset(Without(lists, i)) == multiset(lists) - multiset{lists[i]}
  {
    assert lists == lists[..i] + [lists[i]] + lists[i + 1..];
  }

  lemma WithoutFront(lists: seq<seq<Hit>>, i: nat)
    requires i < |lists| - 1
    ensures Without(lists, i)[..|Without(lists, i)| - 1] == Without(lists[..|lists| - 1], i)
    ensures Without(lists, i)[|Without(lists, i)| - 1] == lists[|lists| - 1]
  {
  }

  lemma {:induction false} TotalWithout(lists: seq<seq<Hit>>, i: nat, key: Uuid, k: nat)
    requires k >= 1 && i < |lists|
    ensures TotalScore(lists, key, k) == TotalScore(Without(lists, i), key, k) + ListScore(lists[i], key, k)
    ensures AllIds(lists) == AllIds(Without(lists, i)) + Ids(Enumerate(lists[i]))
    decreases |lists|
  {
    if i == |lists| - 1 {
      assert Without(lists, i) == lists[..|lists| - 1];
    } else {
      TotalWithout(lists[..|lists| - 1], i, key, k);
      WithoutFront(lists, i);
    }
  }

  lemma {:induction false} TotalPermutes(a: seq<seq<Hit>>, b: seq<seq<Hit>>, key: Uuid, k: nat)
    requires k >= 1 && multiset(a) == multiset(b)
    ensures TotalScore(a, key, k) == TotalScore(b, key, k) && AllIds(a) == AllIds(b)
    decreases |a|
  {
    assert |a| == |multiset(a)| == |multiset(b)| == |b|;
    if a != [] {
      var front, last := a[..|a| - 1], a[|a| - 1];
      assert a == front + [last];
      assert last in multiset(b);
      var i :| 0 <= i < |b| && b[i] == last;
      TotalWithout(b, i, key, k);
      WithoutMultiset(b, i);
      TotalPermutes(front, Without(b, i), key, k);
    }
  }

  /** Reordering the lists changes neither the chunks nor their scores nor their order. */
  lemma FusionPermutes(a: seq<seq<Hit>>, b: seq<seq<Hit>>, k: nat)
    requires k >= 1 && multiset(a) == multiset(b)
    ensures ScoreMap(a, k) == ScoreMap(b, k) && FusedOrder(a, k) == FusedOrder(b, k)
    ensures forall i: nat | i < |FusedOrder(a, k)| :: FusedAt(a, k, i).score == FusedAt(b, k, i).score
  {
    forall key: Uuid
      ensures Score(Entries(a), key, k) == Score(Entries(b), key, k)
      ensures Ids(Entries(a)) == Ids(Entries(b))
    {
      ScoreIsTotal(a, key, k);
      ScoreIsTotal(b, key, k);
      TotalPermutes(a, b, key, k);
    }
    ScoreIsTotal(a, 0, k);
    ScoreIsTotal(b, 0, k);
    TotalPermutes(a, b, 0, k);
    assert ScoreMap(a, k) == ScoreMap(b, k);
  }

  // ----- lists without duplicates -----

  /** The position of a chunk in a list, zero when it is absent. */
  function PositionOf(hits: seq<Hit>, key: Uuid): nat {
    if hits == [] then 0
    else if hits[|hits| - 1].chunkId == key then |hits|
    else PositionOf(hits[..|hits| - 1], key)
  }

  predicate NoDuplicates(hits: seq<Hit>) {
    hits == [] || (NoDuplicates(hits[..|hits| - 1]) && PositionOf(hits[..|hits| - 1], hits[|hits| - 1].chunkId) == 0)
  }

  lemma {:induction false} PositionBounds(hits: seq<Hit>, key: Uuid)
    ensures PositionOf(hits, key) <= |hits|
    ensures PositionOf(hits, key) > 0 <==> key in Ids(Enumerate(hits))
  {
    if hits != [] { PositionBounds(hits[..|hits| - 1], key); }
  }

  /** What one list adds to the score of a chunk. */
  function Worth(k: nat, position: nat): real
    requires k >= 1
  {
    if position == 0 then 0.0 else Reciprocal(k, position)
  }

  lemma {:induction false} ListScoreIsWorth(hits: seq<Hit>, key: Uuid, k: nat)
    requires k >= 1 && NoDuplicates(hits)
    ensures ListScore(hits, key, k) == Worth(k, PositionOf(hits, key))
  {
    if hits != [] {
      ListScoreIsWorth(hits[..|hits| - 1], key, k);
    }
  }

  lemma ReciprocalDecreases(k: nat, p: nat, q: nat)
    requires k >= 1 && p < q
    ensures Reciprocal(k, p) > Reciprocal(k, q) > 0.0
  {
    var a, b := (k + p) as real, (k + q) as real;
    InverseDecreases(a, b);
  }

  lemma InverseDecreases(a: real, b: real)
    requires 0.0 < a < b
    ensures 1.0 / a > 1.0 / b > 0.0
  {
    var x, y := 1.0 / a, 1.0 / b;
    assert x * a == 1.0 && y * b == 1.0 && y > 0.0;
    assert y * a < y * b;
    assert (x - y) * a > 0.0;
  }

  // ----- dominance -----

  /** `x` is ahead of `y` in every list that holds `y`. */
  ghost predicate Ahead(lists: seq<seq<Hit>>, x: Uuid, y: Uuid) {
    forall hits | hits in lists && PositionOf(hits, y) > 0 :: 0 < PositionOf(hits, x) < PositionOf(hits, y)
  }

  ghost predicate AllNoDuplicates(lists: seq<seq<Hit>>) { forall hits | hits in lists :: NoDuplicates(hits) }

  lemma WorthNonNegative(k: nat, p: nat)
    requires k >= 1
    ensures Worth(k, p) >= 0.0
  {
    if p > 0 { ReciprocalDecreases(k, p, p + 1); }
  }

  lemma AheadInList(hits: seq<Hit>, x: Uuid, y: Uuid, k: nat)
    requires k >= 1 && NoDuplicates(hits)
    requires PositionOf(hits, y) > 0 ==> 0 < PositionOf(hits, x) < PositionOf(hits, y)
    ensures ListScore(hits, x, k) >= ListScore(hits, y, k)
    ensures PositionOf(hits, y) > 0 ==> ListScore(hits, x, k) > ListScore(hits, y, k)
  {
    ListScoreIsWorth(hits, x, k);
    ListScoreIsWorth(hits, y, k);
    WorthNonNegative(k, PositionOf(hits, x));
    if PositionOf(hits, y) > 0 { ReciprocalDecreases(k, PositionOf(hits, x), PositionOf(hits, y)); }
  }

  lemma {:induction false} AheadScores(lists: seq<seq<Hit>>, x: Uuid, y: Uuid, k: nat)
    requires k >= 1 && AllNoDuplicates(lists) && Ahead(lists, x, y)
    ensures TotalScore(lists, x, k) >= TotalScore(lists, y, k)
    ensures y in AllIds(lists) ==> TotalScore(lists, x, k) > TotalScore(lists, y, k) && x in AllIds(lists)
  {
    if lists != [] {
      var front, last := lists[..|lists| - 1], lists[|lists| - 1];
      assert lists == front + [last];
      assert last in lists;
      AheadScores(front, x, y, k);
      AheadInList(last, x, y, k);
      PositionBounds(last, x);
      PositionBounds(last, y);
    }
  }

  /** A chunk ahead of another in every list that holds the other outranks it. */
  lemma DominantOutranks(lists: seq<seq<Hit>>, x: Uuid, y: Uuid, k: nat)
    requires k >= 1 && AllNoDuplicates(lists) && Ahead(lists, x, y) && y in Ids(Entries(lists))
    ensures x in ScoreMap(lists, k) && y in ScoreMap(lists, k) && Outranks(x, y, ScoreMap(lists, k))
  {
    ScoreIsTotal(lists, x, k);
    ScoreIsTotal(lists, y, k);
    AheadScores(lists, x, y, k);
  }

  // ----- found by both retrievers -----

  ghost predicate InBoth(a: seq<Hit>, b: seq<Hit>, x: Uuid) { PositionOf(a, x) > 0 && PositionOf(b, x) > 0 }

  ghost predicate InOne(a: seq<Hit>, b: seq<Hit>, y: Uuid) {
    (PositionOf(a, y) > 0 && PositionOf(b, y) == 0) || (PositionOf(a, y) == 0 && PositionOf(b, y) > 0)
  }

  lemma PairScore(a: seq<Hit>, b: seq<Hit>, x: Uuid, k: nat)
    requires k >= 1 && NoDuplicates(a) && NoDuplicates(b)
    ensures Score(Entries([a, b]), x, k) == Worth(k, PositionOf(a, x)) + Worth(k, PositionOf(b, x))
    ensures x in Ids(Entries([a, b])) <==> PositionOf(a, x) > 0 || PositionOf(b, x) > 0
  {
    ScoreIsTotal([a, b], x, k);
    ListScoreIsWorth(a, x, k);
    ListScoreIsWorth(b, x, k);
    PositionBounds(a, x);
    PositionBounds(b, x);
    var one, none: seq<seq<Hit>> := [a], [];
    assert [a, b][..1] == one && one[..0] == none;
    assert TotalScore(one, x, k) == ListScore(a, x, k) && AllIds(one) == Ids(Enumerate(a));
  }

  lemma TwoBeatOne(k: nat, p: nat, q: nat, r: nat)
    requires k >= 1 && 1 <= p <= k + 1 && 1 <= q <= k + 1 && r >= 1
    ensures Reciprocal(k, p) + Reciprocal(k, q) > Reciprocal(k, r)
  {
    if p < k + 1 { ReciprocalDecreases(k, p, k + 1); }
    if q < k + 1 { ReciprocalDecreases(k, q, k + 1); }
    if r > 1 { ReciprocalDecreases(k, 1, r); }
    TwoSmallBeatOne(k);
  }

  lemma TwoSmallBeatOne(k: nat)
    requires k >= 1
    ensures Reciprocal(k, k + 1) + Reciprocal(k, k + 1) > Reciprocal(k, 1)
  {
    var x, n := Reciprocal(k, k + 1), (k + (k + 1)) as real;
    var y, m := Reciprocal(k, 1), (k + 1) as real;
    assert x * n == 1.0 && y * m == 1.0 && n == m + m - 1.0;
    InverseDecreases(m, n);
    Halves(x, y, m, n);
  }

  lemma Halves(x: real, y: real, m: real, n: real)
    requires x * n == 1.0 && y * m == 1.0 && n == m + m - 1.0 && m > 0.0 && x > 0.0
    ensures x + x > y
  {
    assert (x + x) * m == x * n + x;
    assert (x + x - y) * m > 0.0;
  }

  /** Whatever two duplicate-free lists of at most `n` hits say, a chunk in both outranks a chunk in one. */
  ghost predicate BothAlwaysWins(n: nat, k: nat)
    requires k >= 1
  {
    forall a, b, x, y |
      NoDuplicates(a) && NoDuplicates(b) && |a| <= n && |b| <= n && InBoth(a, b, x) && InOne(a, b, y) ::
      BothWins(a, b, x, y, k)
  }

  ghost predicate BothWins(a: seq<Hit>, b: seq<Hit>, x: Uuid, y: Uuid, k: nat)
    requires k >= 1
  {
    var scores := ScoreMap([a, b], k);
    x in scores && y in scores && Outranks(x, y, scores)
  }

  lemma BothOutranks(a: seq<Hit>, b: seq<Hit>, x: Uuid, y: Uuid, k: nat)
    requires k >= 1 && NoDuplicates(a) && NoDuplicates(b) && |a| <= k + 1 && |b| <= k + 1
    requires InBoth(a, b, x) && InOne(a, b, y)
    ensures BothWins(a, b, x, y, k)
  {
    PairScore(a, b, x, k);
    PairScore(a, b, y, k);
    PositionBounds(a, x);
    PositionBounds(b, x);
    var r := if PositionOf(a, y) > 0 then PositionOf(a, y) else PositionOf(b, y);
    TwoBeatOne(k, PositionOf(a, x), PositionOf(b, x), r);
  }

  // a witness one hit longer: the scores tie and the id decides

  function Numbered(lo: nat, n: nat): seq<Hit> {
    if n == 0 then [] else Numbered(lo, n - 1) + [Hit(lo + n - 1, 0, 0.0, 0)]
  }

  lemma PositionSnoc(front: seq<Hit>, h: Hit, key: Uuid)
    ensures PositionOf(front + [h], key) == if h.chunkId == key then |front| + 1 else PositionOf(front, key)
    ensures NoDuplicates(front + [h]) <==> NoDuplicates(front) && PositionOf(front, h.chunkId) == 0
  {
    assert (front + [h])[..|front + [h]| - 1] == front;
  }

  lemma {:induction false} NumberedAt(lo: nat, n: nat, key: Uuid)
    ensures |Numbered(lo, n)| == n
    ensures PositionOf(Numbered(lo, n), key) == if lo <= key < lo + n then key - lo + 1 else 0
  {
    if n > 0 {
      NumberedAt(lo, n - 1, key);
      PositionSnoc(Numbered(lo, n - 1), Hit(lo + n - 1, 0, 0.0, 0), key);
    }
  }

  lemma {:induction false} NumberedDistinct(lo: nat, n: nat)
    ensures NoDuplicates(Numbered(lo, n))
  {
    if n > 0 {
      NumberedDistinct(lo, n - 1);
      var front, h := Numbered(lo, n - 1), Hit(lo + n - 1, 0, 0.0, 0);
      NumberedAt(lo, n - 1, h.chunkId);
      PositionSnoc(front, h, h.chunkId);
      assert Numbered(lo, n) == front + [h];
    }
  }

  /** The numbers from `lo`, then one hit for `last`. */
  function Closing(lo: nat, n: nat, last: Uuid): seq<Hit> { Numbered(lo, n) + [Hit(last, 0, 0.0, 0)] }

  lemma ClosingPosition(lo: nat, n: nat, last: Uuid, key: Uuid)
    requires last >= lo + n
    ensures |Closing(lo, n, last)| == n + 1 && NoDuplicates(Closing(lo, n, last))
    ensures PositionOf(Closing(lo, n, last), key) ==
              if key == last then n + 1 else if lo <= key < lo + n then key - lo + 1 else 0
  {
    NumberedDistinct(lo, n);
    NumberedAt(lo, n, key);
    NumberedAt(lo, n, last);
    PositionSnoc(Numbered(lo, n), Hit(last, 0, 0.0, 0), key);
  }

  lemma TieAtOneMore(k: nat)
    requires k >= 1
    ensures Reciprocal(k, k + 2) + Reciprocal(k, k + 2) == Reciprocal(k, 1)
  {
    var x, y, m := Reciprocal(k, k + 2), Reciprocal(k, 1), (k + 1) as real;
    assert (k + (k + 2)) as real == m + m;
    assert x * (m + m) == 1.0 && y * m == 1.0;
    SameProduct(x + x, y, m);
  }

  lemma SameProduct(a: real, b: real, m: real)
    requires m > 0.0 && a * m == b * m
    ensures a == b
  {
    assert (a - b) * m == 0.0;
  }

  lemma LongerListsCanLose(k: nat, n: nat)
    requires k >= 1 && n >= k + 2
    ensures !BothAlwaysWins(n, k)
  {
    var last := 2 * k + 2;
    var a, b := Closing(0, k + 1, last), Closing(k + 1, k + 1, last);
    ClosingPosition(0, k + 1, last, last);
    ClosingPosition(0, k + 1, last, 0);
    ClosingPosition(k + 1, k + 1, last, last);
    ClosingPosition(k + 1, k + 1, last, 0);
    TieAtOneMore(k);
    LosesTie(a, b, last, 0, k);
  }

  lemma LosesTie(a: seq<Hit>, b: seq<Hit>, x: Uuid, y: Uuid, k: nat)
    requires k >= 1 && NoDuplicates(a) && NoDuplicates(b) && y < x
    requires Worth(k, PositionOf(a, x)) + Worth(k, PositionOf(b, x))
          == Worth(k, PositionOf(a, y)) + Worth(k, PositionOf(b, y))
    ensures !BothWins(a, b, x, y, k)
  {
    PairScore(a, b, x, k);
    PairScore(a, b, y, k);
  }

  /** A chunk in both lists outranks every chunk in one exactly while the lists hold at most k + 1 hits. */
  lemma BothAlwaysWinsIff(n: nat, k: nat)
    requires k >= 1
    ensures BothAlwaysWins(n, k) <==> n <= k + 1
  {
    if n <= k + 1 {
      forall a, b, x, y |
        NoDuplicates(a) && NoDuplicates(b) && |a| <= n && |b| <= n && InBoth(a, b, x) && InOne(a, b, y)
        ensures BothWins(a, b, x, y, k)
      {
        BothOutranks(a, b, x, y, k);
      }
    } else {
      LongerListsCanLose(k, n);
    }
  }

  // ----- what a fused hit shows -----

  lemma {:induction false} EnumerateAt(hits: seq<Hit>, p: nat)
    ensures |Enumerate(hits)| == |hits|
    ensures p < |hits| ==> Enumerate(hits)[p] == Entry(hits[p], p + 1)
  {
    if hits != [] { EnumerateAt(hits[..|hits| - 1], p); }
  }

  /** The retrieved hits, list by list, each with its position in its list, counted from one. */
  lemma {:induction false} EntryAt(lists: seq<seq<Hit>>, a: nat, p: nat)
    requires a < |lists| && p < |lists[a]|
    ensures var i := |Entries(lists[..a])| + p;
            i < |Entries(lists)| && Entries(lists)[i] == Entry(lists[a][p], p + 1)
    ensures |Entries(lists[..a + 1])| == |Entries(lists[..a])| + |lists[a]|
  {
    var front, last := lists[..|lists| - 1], lists[|lists| - 1];
    EnumerateAt(lists[a], p);
    assert lists[..a + 1][..a] == lists[..a] && lists[..a + 1][a] == lists[a];
    if a < |front| {
      EntryAt(front, a, p);
      assert front[..a] == lists[..a];
    }
  }

  /** Entry `i` is the first one of the chunk. */
  ghost predicate FirstOf(es: seq<Entry>, key: Uuid, i: nat) {
    i < |es| && es[i].hit.chunkId == key && forall j | 0 <= j < i :: es[j].hit.chunkId != key
  }

  lemma {:induction false} FirstHitAt(es: seq<Entry>, key: Uuid)
    ensures FirstHit(es, key).Some? ==> exists i: nat :: FirstOf(es, key, i) && FirstHit(es, key) == Some(es[i].hit)
    ensures FirstHit(es, key).None? ==> forall e | e in es :: e.hit.chunkId != key
  {
    if es != [] {
      var front, last := es[..|es| - 1], es[|es| - 1];
      FirstHitAt(front, key);
      assert es == front + [last];
      if i: nat :| FirstOf(front, key, i) && FirstHit(front, key) == Some(front[i].hit) {
        assert FirstOf(es, key, i) && es[i] == front[i];
      } else if last.hit.chunkId == key {
        assert FirstOf(es, key, |es| - 1);
      }
    }
  }

  /** Entry `i` is the last one of the chunk and the source. */
  ghost predicate LastOf(es: seq<Entry>, key: Uuid, source: Source, i: nat) {
    && i < |es| && es[i].hit.chunkId == key && es[i].hit.source == source
    && forall j | i < j < |es| :: es[j].hit.chunkId != key || es[j].hit.source != source
  }

  /** A source shows the position and the score of its last entry for the chunk, and only sources with one show. */
  ghost predicate ShowsSource(ranks: map<Source, nat>, scores: map<Source, real>, es: seq<Entry>, key: Uuid,
                              source: Source) {
    && (source in ranks <==> source in scores) && (source in ranks <==> exists i: nat :: LastOf(es, key, source, i))
    && forall i: nat | source in ranks && source in scores && LastOf(es, key, source, i) ::
         ranks[source] == es[i].position && scores[source] == es[i].hit.score
  }

  lemma LastOfSnoc(es: seq<Entry>, e: Entry, key: Uuid, source: Source, i: nat)
    ensures LastOf(es + [e], key, source, i) <==>
              if e.hit.chunkId == key && e.hit.source == source then i == |es| else LastOf(es, key, source, i)
  {
    var all := es + [e];
    assert all[|es|] == e;
    if i < |es| {
      assert all[i] == es[i];
      if LastOf(all, key, source, i) {
        forall j | i < j < |es| ensures es[j].hit.chunkId != key || es[j].hit.source != source {
          assert all[j] == es[j];
        }
      }
    }
  }

  lemma {:induction false} SourceShown(es: seq<Entry>, key: Uuid, source: Source)
    ensures ShowsSource(Ranks(es, key), SourceScores(es, key), es, key, source)
  {
    if es != [] {
      var front, last := es[..|es| - 1], es[|es| - 1];
      assert es == front + [last];
      SourceShown(front, key, source);
      var here := last.hit.chunkId == key && last.hit.source == source;
      forall i: nat
        ensures LastOf(es, key, source, i) <==> if here then i == |front| else LastOf(front, key, source, i)
      {
        LastOfSnoc(front, last, key, source, i);
      }
      if here {
        assert LastOf(es, key, source, |front|);
      } else if i: nat :| LastOf(front, key, source, i) {
        assert LastOf(es, key, source, i);
      }
    }
  }

  /** The rank counts from one, and the hit is the first retrieved one of the chunk. */
  ghost predicate ShowsHit(h: FusedHit, es: seq<Entry>, key: Uuid, rank: nat) {
    h.rank == rank && h.hit.chunkId == key && exists j: nat :: FirstOf(es, key, j) && h.hit == es[j].hit
  }

  /** A fused hit is ranked from one, carries the first retrieved hit of its chunk, and shows for each source the
      position and the score of that source's last hit. */
  lemma FusedHitMeans(lists: seq<seq<Hit>>, k: nat, i: nat, source: Source)
    requires k >= 1 && i < |FusedOrder(lists, k)|
    ensures var es, h, key := Entries(lists), FusedAt(lists, k, i), FusedOrder(lists, k)[i];
            ShowsHit(h, es, key, i + 1) && ShowsSource(h.ranks, h.sourceScores, es, key, source)
  {
    var es, key := Entries(lists), FusedOrder(lists, k)[i];
    RankingMembers(Ids(es), ScoreMap(lists, k), key);
    FirstHitPresent(es, key);
    FirstHitAt(es, key);
    SourceShown(es, key, source);
  }

  /** For every list that holds the chunk, one over `k` and the position. */
  ghost function ReciprocalSum(lists: seq<seq<Hit>>, key: Uuid, k: nat): real
    requires k >= 1
  {
    if lists == [] then 0.0
    else
      var before, p := ReciprocalSum(lists[..|lists| - 1], key, k), PositionOf(lists[|lists| - 1], key);
      if p == 0 then before else before + 1.0 / (k + p) as real
  }

  /** In lists without duplicates the fused score of a chunk is the sum of those reciprocals. */
  lemma {:induction false} ScoreIsReciprocalSum(lists: seq<seq<Hit>>, key: Uuid, k: nat)
    requires k >= 1 && AllNoDuplicates(lists)
    ensures Score(Entries(lists), key, k) == ReciprocalSum(lists, key, k)
  {
    if lists != [] {
      var front, last := lists[..|lists| - 1], lists[|lists| - 1];
      assert last in lists && forall hits | hits in front :: hits in lists;
      ScoreIsReciprocalSum(front, key, k);
      ScoreAppend(Entries(front), Enumerate(last), key, k);
      ListScoreIsWorth(last, key, k);
    }
  }
}
