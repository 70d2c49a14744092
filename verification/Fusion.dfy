/** Reciprocal-rank fusion of ranked lists. */
module Fusion {
  import opened Ordering

  type Source = nat

  datatype Hit = Hit(chunkId: Uuid, source: Source, score: real, content: nat)

  datatype FusedHit = FusedHit(hit: Hit, score: real, rank: nat, ranks: map<Source, nat>,
                               sourceScores: map<Source, real>)

  datatype Result = Fused(hits: seq<FusedHit>) | NonPositiveK

  /** A hit with its position in its list, counted from one. */
  datatype Entry = Entry(hit: Hit, position: nat)

  function Enumerate(hits: seq<Hit>): seq<Entry> {
    if hits == [] then [] else Enumerate(hits[..|hits| - 1]) + [Entry(hits[|hits| - 1], |hits|)]
  }

  function Entries(lists: seq<seq<Hit>>): seq<Entry> {
    if lists == [] then [] else Entries(lists[..|lists| - 1]) + Enumerate(lists[|lists| - 1])
  }

  // ----- what each chunk collects -----

  function Reciprocal(k: nat, position: nat): real
    requires k >= 1
  {
    1.0 / (k + position) as real
  }

  function Share(e: Entry, key: Uuid, k: nat): real
    requires k >= 1
  {
    if e.hit.chunkId == key then Reciprocal(k, e.position) else 0.0
  }

  function Score(es: seq<Entry>, key: Uuid, k: nat): real
    requires k >= 1
  {
    if es == [] then 0.0 else Score(es[..|es| - 1], key, k) + Share(es[|es| - 1], key, k)
  }

  function Ids(es: seq<Entry>): set<Uuid> {
    if es == [] then {} else Ids(es[..|es| - 1]) + {es[|es| - 1].hit.chunkId}
  }

  /** The position in each source; a later entry of a source replaces an earlier one. */
  function Ranks(es: seq<Entry>, key: Uuid): map<Source, nat> {
    if es == [] then map[]
    else
      var before, last := Ranks(es[..|es| - 1], key), es[|es| - 1];
      if last.hit.chunkId == key then before[last.hit.source := last.position] else before
  }

  function SourceScores(es: seq<Entry>, key: Uuid): map<Source, real> {
    if es == [] then map[]
    else
      var before, last := SourceScores(es[..|es| - 1], key), es[|es| - 1];
      if last.hit.chunkId == key then before[last.hit.source := last.hit.score] else before
  }

  /** The first entry of a chunk supplies its content. */
  function FirstHit(es: seq<Entry>, key: Uuid): Option<Hit> {
    if es == [] then None
    else
      var before := FirstHit(es[..|es| - 1], key);
      if before.None? && es[|es| - 1].hit.chunkId == key then Some(es[|es| - 1].hit) else before
  }

  lemma {:induction false} FirstHitPresent(es: seq<Entry>, key: Uuid)
    ensures FirstHit(es, key).Some? <==> key in Ids(es)
  {
    if es != [] { FirstHitPresent(es[..|es| - 1], key); }
  }

  // ----- the order -----

  /** Higher score first, then smaller id. */
  predicate Outranks(a: Uuid, b: Uuid, scores: map<Uuid, real>)
    requires a in scores && b in scores
  {
    scores[a] > scores[b] || (scores[a] == scores[b] && a < b)
  }

  lemma BestExists(keys: set<Uuid>, scores: map<Uuid, real>)
    requires keys != {} && keys <= scores.Keys
    ensures exists x | x in keys :: forall y | y in keys && y != x :: Outranks(x, y, scores)
  {
    var x :| x in keys;
    if keys - {x} != {} {
      BestExists(keys - {x}, scores);
      var z :| z in keys - {x} && forall y | y in keys - {x} && y != z :: Outranks(z, y, scores);
      if Outranks(x, z, scores) {
        forall y | y in keys && y != x ensures Outranks(x, y, scores) {
          assert y in keys - {x};
        }
      } else {
        forall y | y in keys && y != z ensures Outranks(z, y, scores) {
          assert y == x || y in keys - {x};
        }
      }
    } else {
      assert keys == {x};
    }
  }

  function Best(keys: set<Uuid>, scores: map<Uuid, real>): (x: Uuid)
    requires keys != {} && keys <= scores.Keys
    ensures x in keys && forall y | y in keys && y != x :: Outranks(x, y, scores)
  {
    BestExists(keys, scores);
    var x :| x in keys && forall y | y in keys && y != x :: Outranks(x, y, scores);
    x
  }

  function Ranking(keys: set<Uuid>, scores: map<Uuid, real>): seq<Uuid>
    requires keys <= scores.Keys
  {
    if keys == {} then [] else [Best(keys, scores)] + Ranking(keys - {Best(keys, scores)}, scores)
  }

  lemma {:induction false} RankingMembers(keys: set<Uuid>, scores: map<Uuid, real>, x: Uuid)
    requires keys <= scores.Keys
    ensures x in Ranking(keys, scores) <==> x in keys
    ensures |Ranking(keys, scores)| == |keys|
    decreases |keys|
  {
    if keys != {} {
      RankingMembers(keys - {Best(keys, scores)}, scores, x);
    }
  }

  lemma {:induction false} RankingSorted(keys: set<Uuid>, scores: map<Uuid, real>, i: nat, j: nat)
    requires keys <= scores.Keys && i < j < |Ranking(keys, scores)|
    ensures Ranking(keys, scores)[i] in scores && Ranking(keys, scores)[j] in scores
    ensures Outranks(Ranking(keys, scores)[i], Ranking(keys, scores)[j], scores)
    decreases |keys|
  {
    var best := Best(keys, scores);
    var rest := keys - {best};
    if i == 0 {
      RankingMembers(rest, scores, Ranking(rest, scores)[j - 1]);
    } else {
      RankingSorted(rest, scores, i - 1, j - 1);
    }
  }

  // ----- the algorithm -----

  datatype Merge = Merge(merged: map<Uuid, Hit>, scores: map<Uuid, real>, ranks: map<Uuid, map<Source, nat>>,
                         sourceScores: map<Uuid, map<Source, real>>)

  /** What the four dictionaries hold for one chunk after these entries. */
  ghost predicate HoldsFor(m: Merge, es: seq<Entry>, key: Uuid, k: nat)
    requires k >= 1
  {
    if key in Ids(es) then
      && key in m.merged && key in m.scores && key in m.ranks && key in m.sourceScores
      && FirstHit(es, key) == Some(m.merged[key]) && m.scores[key] == Score(es, key, k)
      && m.ranks[key] == Ranks(es, key) && m.sourceScores[key] == SourceScores(es, key)
    else
      key !in m.merged && key !in m.scores && key !in m.ranks && key !in m.sourceScores
  }

  ghost predicate MergeOf(m: Merge, es: seq<Entry>, k: nat)
    requires k >= 1
  {
    forall key: Uuid :: HoldsFor(m, es, key, k)
  }

  lemma {:induction false} AbsentCollectsNothing(es: seq<Entry>, key: Uuid, k: nat)
    requires k >= 1 && key !in Ids(es)
    ensures Score(es, key, k) == 0.0 && Ranks(es, key) == map[] && SourceScores(es, key) == map[]
    ensures FirstHit(es, key) == None
  {
    if es != [] { AbsentCollectsNothing(es[..|es| - 1], key, k); }
  }

  /** The dictionaries with one more entry. */
  function Added(m: Merge, e: Entry, k: nat): Merge
    requires k >= 1
  {
    var key, source := e.hit.chunkId, e.hit.source;
    var score := (if key in m.scores then m.scores[key] else 0.0) + Reciprocal(k, e.position);
    var ranks: map<Source, nat> := (if key in m.ranks then m.ranks[key] else map[])[source := e.position];
    var sourceScores: map<Source, real> :=
      (if key in m.sourceScores then m.sourceScores[key] else map[])[source := e.hit.score];
    Merge(if key in m.merged then m.merged else m.merged[key := e.hit], m.scores[key := score],
          m.ranks[key := ranks], m.sourceScores[key := sourceScores])
  }

  lemma EntrySnoc(es: seq<Entry>, e: Entry)
    ensures (es + [e])[..|es + [e]| - 1] == es && (es + [e])[|es + [e]| - 1] == e
  {
  }

  lemma AddedForKey(m: Merge, e: Entry, es: seq<Entry>, k: nat, key: Uuid)
    requires k >= 1 && HoldsFor(m, es, key, k)
    ensures HoldsFor(Added(m, e, k), es + [e], key, k)
  {
    EntrySnoc(es, e);
    if key !in Ids(es) {
      AbsentCollectsNothing(es, key, k);
    } else {
      FirstHitPresent(es, key);
    }
  }

  lemma AddedKeeps(m: Merge, e: Entry, es: seq<Entry>, k: nat)
    requires k >= 1 && MergeOf(m, es, k)
    ensures MergeOf(Added(m, e, k), es + [e], k)
  {
    forall key: Uuid ensures HoldsFor(Added(m, e, k), es + [e], key, k) {
      AddedForKey(m, e, es, k, key);
    }
  }

  /** Adds one list to the dictionaries. */
  method MergeHits(m0: Merge, hits: seq<Hit>, k: nat, ghost before: seq<Entry>) returns (m: Merge)
    requires k >= 1 && MergeOf(m0, before, k)
    ensures MergeOf(m, before + Enumerate(hits), k)
  {
    m := m0;
    ghost var done := before;
    for j := 0 to |hits|
      invariant done == before + Enumerate(hits[..j]) && MergeOf(m, done, k)
    {
      var e := Entry(hits[j], j + 1);
      AddedKeeps(m, e, done, k);
      m := Added(m, e, k);
      assert hits[..j + 1][..j] == hits[..j];
      done := done + [e];
    }
    assert hits[..|hits|] == hits;
  }

  method MergeLists(lists: seq<seq<Hit>>, k: nat) returns (m: Merge)
    requires k >= 1
    ensures MergeOf(m, Entries(lists), k)
  {
    m := Merge(map[], map[], map[], map[]);
    for i := 0 to |lists|
      invariant MergeOf(m, Entries(lists[..i]), k)
    {
      m := MergeHits(m, lists[i], k, Entries(lists[..i]));
      assert lists[..i + 1][..i] == lists[..i];
    }
    assert lists[..|lists|] == lists;
  }

  function FirstN<T>(s: seq<T>, n: nat): seq<T> { if n < |s| then s[..n] else s }

  ghost function ScoreMap(lists: seq<seq<Hit>>, k: nat): map<Uuid, real>
    requires k >= 1
  {
    map key | key in Ids(Entries(lists)) :: Score(Entries(lists), key, k)
  }

  /** The chunks in fused order. */
  ghost function FusedOrder(lists: seq<seq<Hit>>, k: nat): seq<Uuid>
    requires k >= 1
  {
    Ranking(Ids(Entries(lists)), ScoreMap(lists, k))
  }

  ghost function FusedAt(lists: seq<seq<Hit>>, k: nat, i: nat): FusedHit
    requires k >= 1 && i < |FusedOrder(lists, k)|
  {
    var es, key := Entries(lists), FusedOrder(lists, k)[i];
    RankingMembers(Ids(es), ScoreMap(lists, k), key);
    FirstHitPresent(es, key);
    FusedHit(FirstHit(es, key).value, Score(es, key, k), i + 1, Ranks(es, key), SourceScores(es, key))
  }

  /** The fused list holds the first chunks of the fused order, each with what it collected. */
  method ReciprocalRankFusion(lists: seq<seq<Hit>>, limit: int, k: int) returns (r: Result)
    ensures limit < 1 ==> r == Fused([])
    ensures limit >= 1 && k < 1 ==> r == NonPositiveK
    ensures limit >= 1 && k >= 1 ==>
              && r.Fused? && |r.hits| == |FirstN(FusedOrder(lists, k), limit)|
              && forall i | 0 <= i < |r.hits| :: r.hits[i] == FusedAt(lists, k, i)
  {
    if limit < 1 {
      return Fused([]);
    }
    if k < 1 {
      return NonPositiveK;
    }
    var m := MergeLists(lists, k);
    MergedKeys(m, lists, k);
    var ordered := Ranking(m.merged.Keys, m.scores);
    var hits := TopHits(m, lists, ordered, limit, k);
    r := Fused(hits);
  }

  /** The hit for one chunk, out of the dictionaries. */
  method TopHits(m: Merge, ghost lists: seq<seq<Hit>>, ordered: seq<Uuid>, limit: nat, k: nat)
    returns (hits: seq<FusedHit>)
    requires k >= 1 && MergeOf(m, Entries(lists), k) && ordered == FusedOrder(lists, k)
    ensures |hits| == |FirstN(ordered, limit)|
    ensures forall i | 0 <= i < |hits| :: hits[i] == FusedAt(lists, k, i)
  {
    hits := [];
    for i := 0 to |FirstN(ordered, limit)|
      invariant |hits| == i
      invariant forall j | 0 <= j < i :: hits[j] == FusedAt(lists, k, j)
    {
      var key := ordered[i];
      MergedAt(m, lists, k, i);
      hits := hits + [FusedHit(m.merged[key], m.scores[key], i + 1, m.ranks[key], m.sourceScores[key])];
    }
  }

  lemma MergedAt(m: Merge, lists: seq<seq<Hit>>, k: nat, i: nat)
    requires k >= 1 && MergeOf(m, Entries(lists), k) && i < |FusedOrder(lists, k)|
    ensures var key := FusedOrder(lists, k)[i];
            && key in m.merged && key in m.scores && key in m.ranks && key in m.sourceScores
            && FusedHit(m.merged[key], m.scores[key], i + 1, m.ranks[key], m.sourceScores[key]) == FusedAt(lists, k, i)
  {
    var key := FusedOrder(lists, k)[i];
    RankingMembers(Ids(Entries(lists)), ScoreMap(lists, k), key);
    assert HoldsFor(m, Entries(lists), key, k);
  }

  lemma MergedKeys(m: Merge, lists: seq<seq<Hit>>, k: nat)
    requires k >= 1 && MergeOf(m, Entries(lists), k)
    ensures m.merged.Keys == Ids(Entries(lists)) && m.scores == ScoreMap(lists, k)
    ensures m.ranks.Keys == Ids(Entries(lists)) && m.sourceScores.Keys == Ids(Entries(lists))
  {
    var ids, scores := Ids(Entries(lists)), ScoreMap(lists, k);
    forall key: Uuid
      ensures key in ids <==> key in m.merged
      ensures key in ids <==> key in m.ranks
      ensures key in ids <==> key in m.sourceScores
      ensures key in scores <==> key in m.scores
      ensures key in scores ==> scores[key] == m.scores[key]
    {
      assert HoldsFor(m, Entries(lists), key, k);
    }
  }
}
