/** A table of immutable, numbered versions: what its uniqueness constraints guarantee. */
module VersionedStore {
  import opened Ordering
  import opened Runs

  type Hash = nat

  /** `author` is the transaction that inserted the row. */
  datatype Row = Row(id: Uuid, version: nat, hash: Hash, author: ClientId)

  /** The largest version stored for `id`, zero when there is none. */
  function MaxVersion(rows: seq<Row>, id: Uuid): nat {
    if rows == [] then 0
    else
      var m, last := MaxVersion(rows[..|rows| - 1], id), rows[|rows| - 1];
      if last.id == id && last.version > m then last.version else m
  }

  predicate HoldsHash(rows: seq<Row>, id: Uuid, hash: Hash) {
    exists r :: r in rows && r.id == id && r.hash == hash
  }

  predicate HoldsVersion(rows: seq<Row>, id: Uuid, version: nat) {
    exists r :: r in rows && r.id == id && r.version == version
  }

  /** The two uniqueness constraints: per id, a version and a hash are stored at most once. */
  predicate Violates(rows: seq<Row>, row: Row) {
    HoldsVersion(rows, row.id, row.version) || HoldsHash(rows, row.id, row.hash)
  }

  predicate Clash(a: Row, b: Row) { a.id == b.id && (a.version == b.version || a.hash == b.hash) }

  /** A row blocks exactly the rows that it would refuse once it is stored. */
  lemma ClashIffViolates(a: Row, b: Row)
    ensures Clash(a, b) <==> Violates([a], b)
  {
    assert a in [a];
  }

  /** Every row got the next version of its id, and a hash that its id did not have. */
  ghost predicate Dense(rows: seq<Row>) {
    rows == []
    || (var front, last := rows[..|rows| - 1], rows[|rows| - 1];
        && Dense(front)
        && last.version == MaxVersion(front, last.id) + 1
        && !HoldsHash(front, last.id, last.hash))
  }

  ghost predicate Stored(rows: seq<Row>, id: Uuid, version: nat, hash: Hash) {
    exists r :: r in rows && r.id == id && r.version == version && r.hash == hash
  }

  lemma StoredAppend(rows: seq<Row>, more: seq<Row>, id: Uuid, version: nat, hash: Hash)
    requires Stored(rows, id, version, hash)
    ensures Stored(rows + more, id, version, hash)
  {
    var r :| r in rows && r.id == id && r.version == version && r.hash == hash;
    assert r in rows + more;
  }

  lemma Snoc<T>(s: seq<T>, x: T)
    ensures (s + [x])[..|s + [x]| - 1] == s && (s + [x])[|s + [x]| - 1] == x
    ensures forall y :: y in s + [x] <==> y in s || y == x
  {
  }

  lemma DenseAppend(rows: seq<Row>, row: Row)
    requires Dense(rows) && row.version == MaxVersion(rows, row.id) + 1 && !HoldsHash(rows, row.id, row.hash)
    ensures Dense(rows + [row])
  {
    Snoc(rows, row);
  }

  lemma MaxAppend(rows: seq<Row>, row: Row, id: Uuid)
    ensures MaxVersion(rows + [row], id)
         == if row.id == id && row.version > MaxVersion(rows, id) then row.version else MaxVersion(rows, id)
  {
    Snoc(rows, row);
  }

  lemma {:induction false} VersionAtMostMax(rows: seq<Row>, r: Row)
    requires r in rows
    ensures r.version <= MaxVersion(rows, r.id)
  {
    var front, last := rows[..|rows| - 1], rows[|rows| - 1];
    assert rows == front + [last];
    if r != last {
      assert r in front;
      VersionAtMostMax(front, r);
    }
  }

  /** Stored versions are exactly 1..n. */
  lemma {:induction false} VersionsAreOneToN(rows: seq<Row>, id: Uuid, v: nat)
    requires Dense(rows)
    ensures HoldsVersion(rows, id, v) <==> 1 <= v <= MaxVersion(rows, id)
  {
    if rows == [] {
    } else {
      var front, last := rows[..|rows| - 1], rows[|rows| - 1];
      VersionsAreOneToN(front, id, v);
      Snoc(front, last);
      assert rows == front + [last];
      HoldsVersionSnoc(front, last, id, v);
      assert last.id == id ==> last.version == MaxVersion(front, id) + 1;
    }
  }

  lemma HoldsVersionSnoc(rows: seq<Row>, row: Row, id: Uuid, v: nat)
    ensures HoldsVersion(rows + [row], id, v) <==> HoldsVersion(rows, id, v) || (row.id == id && row.version == v)
  {
    Snoc(rows, row);
  }

  lemma HoldsHashSnoc(rows: seq<Row>, row: Row, id: Uuid, h: Hash)
    ensures HoldsHash(rows + [row], id, h) <==> HoldsHash(rows, id, h) || (row.id == id && row.hash == h)
  {
    Snoc(rows, row);
  }

  /** Two different rows of one id differ in version and in hash. */
  lemma {:induction false} RowsDiffer(rows: seq<Row>, i: nat, j: nat)
    requires Dense(rows) && i < j < |rows| && rows[i].id == rows[j].id
    ensures rows[i].version < rows[j].version && rows[i].hash != rows[j].hash
    decreases |rows|
  {
    var front, last := rows[..|rows| - 1], rows[|rows| - 1];
    if j < |rows| - 1 {
      RowsDiffer(front, i, j);
    } else {
      assert rows[i] == front[i];
      VersionAtMostMax(front, rows[i]);
    }
  }

  /** A version names one stored row. */
  lemma VersionNamesRow(rows: seq<Row>, a: Row, b: Row)
    requires Dense(rows) && a in rows && b in rows && a.id == b.id
    ensures a.version == b.version ==> a == b
    ensures a.hash == b.hash ==> a == b
  {
    var i :| 0 <= i < |rows| && rows[i] == a;
    var j :| 0 <= j < |rows| && rows[j] == b;
    if i < j {
      RowsDiffer(rows, i, j);
    } else if j < i {
      RowsDiffer(rows, j, i);
    }
  }

  /** A next version computed from an older table is accepted only while it is still the next one. */
  lemma AcceptedIsNext(rows: seq<Row>, row: Row, seen: nat)
    requires Dense(rows) && seen <= MaxVersion(rows, row.id) && row.version == seen + 1
    ensures !HoldsVersion(rows, row.id, row.version) <==> row.version == MaxVersion(rows, row.id) + 1
  {
    VersionsAreOneToN(rows, row.id, row.version);
  }

  /** The newest row of an id. */
  function Latest(rows: seq<Row>, id: Uuid): Option<Row> {
    if rows == [] then None
    else
      var rest, last := Latest(rows[..|rows| - 1], id), rows[|rows| - 1];
      if last.id == id && (rest.None? || last.version > rest.value.version) then Some(last) else rest
  }

  lemma {:induction false} LatestFacts(rows: seq<Row>, id: Uuid)
    ensures Latest(rows, id).None? <==> forall r | r in rows :: r.id != id
    ensures Latest(rows, id).Some? ==>
              && Latest(rows, id).value in rows && Latest(rows, id).value.id == id
              && Latest(rows, id).value.version == MaxVersion(rows, id)
    ensures Latest(rows, id).None? ==> MaxVersion(rows, id) == 0
  {
    if rows == [] {
    } else {
      var front, last := rows[..|rows| - 1], rows[|rows| - 1];
      LatestFacts(front, id);
      Snoc(front, last);
      assert rows == front + [last];
    }
  }

  /** The first row with this id and hash. */
  function FindExact(rows: seq<Row>, id: Uuid, hash: Hash): Option<Row> {
    if rows == [] then None
    else
      var rest, last := FindExact(rows[..|rows| - 1], id, hash), rows[|rows| - 1];
      if rest.Some? then rest else if last.id == id && last.hash == hash then Some(last) else None
  }

  lemma {:induction false} FindExactFacts(rows: seq<Row>, id: Uuid, hash: Hash)
    ensures FindExact(rows, id, hash).Some? <==> HoldsHash(rows, id, hash)
    ensures FindExact(rows, id, hash).Some? ==>
              var r := FindExact(rows, id, hash).value;
              r in rows && r.id == id && r.hash == hash
  {
    if rows == [] {
    } else {
      var front, last := rows[..|rows| - 1], rows[|rows| - 1];
      FindExactFacts(front, id, hash);
      assert rows == front + [last];
      HoldsHashSnoc(front, last, id, hash);
      Snoc(front, last);
    }
  }
}
