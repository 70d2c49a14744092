/** The import service called by one client at a time, and its agreement with the protocol. */
module ImportService {
  import opened Ordering
  import opened VersionedStore
  import opened ImportProtocol
  import opened Runs

  datatype Reply = InvalidEvidence | Conflict | Imported(result: Result)

  /** What one import does: an exact copy is found again, anything else becomes the next version. */
  function ImportInto(rows: seq<Row>, id: Uuid, hash: Hash, author: ClientId): (seq<Row>, Result) {
    var found := FindExact(rows, id, hash);
    if found.Some? then (rows, Unchanged(found.value.version))
    else
      var next := MaxVersion(rows, id) + 1;
      (rows + [Row(id, next, hash, author)], Inserted(next))
  }

  /** A content that the id already has is answered with its version and changes nothing; a new one becomes the next
      version, counting from one, and is answered as inserted. */
  lemma ImportAnswers(rows: seq<Row>, id: Uuid, hash: Hash, author: ClientId)
    requires Dense(rows)
    ensures var (rows', result) := ImportInto(rows, id, hash, author);
            && (result.Unchanged? <==> HoldsHash(rows, id, hash))
            && (result.Unchanged? ==> rows' == rows && Stored(rows, id, result.version, hash))
            && (result.Inserted? ==>
                  && rows' == rows + [Row(id, result.version, hash, author)]
                  && forall v: nat :: HoldsVersion(rows', id, v) <==> 1 <= v <= result.version)
  {
    FindExactFacts(rows, id, hash);
    if FindExact(rows, id, hash).None? {
      var row := Row(id, MaxVersion(rows, id) + 1, hash, author);
      DenseAppend(rows, row);
      MaxAppend(rows, row, id);
      forall v: nat ensures HoldsVersion(rows + [row], id, v) <==> 1 <= v <= row.version {
        VersionsAreOneToN(rows + [row], id, v);
      }
    }
  }

  /** The answer after a refused insert. */
  function RaceReply(raced: Option<Row>): Reply {
    match raced
    case Some(row) => Imported(Unchanged(row.version))
    case None => Conflict
  }

  /** The rows of the import table. */
  class ImportStore {
    var rows: seq<Row>

    constructor ()
      ensures rows == []
    {
      rows := [];
    }

    method FindExactImport(id: Uuid, hash: Hash) returns (r: Option<Row>)
      ensures r == FindExact(rows, id, hash)
    {
      r := None;
      for i := 0 to |rows|
        invariant r == FindExact(rows[..i], id, hash)
      {
        assert rows[..i + 1][..i] == rows[..i];
        if r.None? && rows[i].id == id && rows[i].hash == hash {
          r := Some(rows[i]);
        }
      }
      assert rows[..|rows|] == rows;
    }

    method LatestImportVersion(id: Uuid) returns (m: nat)
      ensures m == MaxVersion(rows, id)
    {
      m := 0;
      for i := 0 to |rows|
        invariant m == MaxVersion(rows[..i], id)
      {
        assert rows[..i + 1][..i] == rows[..i];
        if rows[i].id == id && rows[i].version > m {
          m := rows[i].version;
        }
      }
      assert rows[..|rows|] == rows;
    }

    /** The constraints decide: the row is appended, or nothing happens. */
    method SaveImport(row: Row) returns (inserted: bool)
      modifies this
      ensures inserted <==> !Violates(old(rows), row)
      ensures rows == if inserted then old(rows) + [row] else old(rows)
    {
      inserted := !Violates(rows, row);
      if inserted {
        rows := rows + [row];
      }
    }

    method ImportEvidence(id: Uuid, hash: Hash, hasEvents: bool, author: ClientId) returns (reply: Reply)
      modifies this
      ensures !hasEvents ==> reply == InvalidEvidence && rows == old(rows)
      ensures hasEvents ==> reply == Imported(ImportInto(old(rows), id, hash, author).1)
                            && rows == ImportInto(old(rows), id, hash, author).0
    {
      if !hasEvents {
        return InvalidEvidence;
      }
      var existing := FindExactImport(id, hash);
      if existing.Some? {
        return Imported(Unchanged(existing.value.version));
      }
      var latest := LatestImportVersion(id);
      FreshRowAccepted(rows, Row(id, latest + 1, hash, author));
      var inserted := SaveImport(Row(id, latest + 1, hash, author));
      if !inserted {
        var raced := FindExactImport(id, hash);
        reply := RaceReply(raced);
      } else {
        reply := Imported(Inserted(latest + 1));
      }
    }
  }

  lemma FreshRowAccepted(rows: seq<Row>, row: Row)
    requires FindExact(rows, row.id, row.hash).None? && row.version == MaxVersion(rows, row.id) + 1
    ensures !Violates(rows, row)
  {
    FindExactFacts(rows, row.id, row.hash);
    forall r | r in rows && r.id == row.id ensures r.version != row.version {
      VersionAtMostMax(rows, r);
    }
  }

  // ----- sequences of imports -----

  datatype Request = Request(id: Uuid, hash: Hash, author: ClientId)

  /** The table after a sequence of imports. */
  function After(requests: seq<Request>): seq<Row> {
    if requests == [] then []
    else
      var last := requests[|requests| - 1];
      ImportInto(After(requests[..|requests| - 1]), last.id, last.hash, last.author).0
  }

  function WithHash(hashes: set<Hash>, r: Request, id: Uuid): set<Hash> {
    if r.id == id then hashes + {r.hash} else hashes
  }

  /** The different contents imported for an id. */
  function HashesOf(requests: seq<Request>, id: Uuid): set<Hash> {
    if requests == [] then {} else WithHash(HashesOf(requests[..|requests| - 1], id), requests[|requests| - 1], id)
  }

  /** The table holds exactly these contents for the id, and as many versions as contents. */
  ghost predicate Deduplicated(rows: seq<Row>, id: Uuid, hashes: set<Hash>) {
    && Dense(rows)
    && (forall h: Hash :: HoldsHash(rows, id, h) <==> h in hashes)
    && MaxVersion(rows, id) == |hashes|
  }

  lemma ImportKeepsDeduplicated(rows: seq<Row>, r: Request, id: Uuid, hashes: set<Hash>)
    requires Deduplicated(rows, id, hashes)
    ensures Deduplicated(ImportInto(rows, r.id, r.hash, r.author).0, id, WithHash(hashes, r, id))
  {
    OneMoreImport(rows, r, id);
    if r.id == id && r.hash in hashes {
      assert WithHash(hashes, r, id) == hashes;
    }
  }

  /** However often contents are imported, each different one is stored once and numbered in turn. */
  lemma {:induction false} ImportsAreDeduplicated(requests: seq<Request>, id: Uuid)
    ensures Deduplicated(After(requests), id, HashesOf(requests, id))
  {
    if requests == [] {
      assert After(requests) == [];
    } else {
      var front, last := requests[..|requests| - 1], requests[|requests| - 1];
      ImportsAreDeduplicated(front, id);
      ImportKeepsDeduplicated(After(front), last, id, HashesOf(front, id));
    }
  }

  lemma OneMoreImport(rows: seq<Row>, last: Request, id: Uuid)
    requires Dense(rows)
    ensures var rows' := ImportInto(rows, last.id, last.hash, last.author).0;
            var isNew := last.id == id && !HoldsHash(rows, id, last.hash);
            && Dense(rows')
            && (forall h: Hash :: HoldsHash(rows', id, h) <==> HoldsHash(rows, id, h) || (isNew && h == last.hash))
            && MaxVersion(rows', id) == MaxVersion(rows, id) + if isNew then 1 else 0
  {
    FindExactFacts(rows, last.id, last.hash);
    if FindExact(rows, last.id, last.hash).None? {
      var row := Row(last.id, MaxVersion(rows, last.id) + 1, last.hash, last.author);
      DenseAppend(rows, row);
      MaxAppend(rows, row, id);
      forall h: Hash ensures HoldsHash(rows + [row], id, h)
                             <==> HoldsHash(rows, id, h) || (row.id == id && h == last.hash)
      {
        HoldsHashSnoc(rows, row, id, h);
      }
    }
  }

  /** Importing a content again, after anything else, answers the version it first got. */
  lemma {:induction false} ReimportFindsVersion(rows: seq<Row>, id: Uuid, hash: Hash, later: seq<Request>,
                                                author: ClientId)
    requires Dense(rows) && FindExact(rows, id, hash).Some?
    ensures ImportInto(Replay(rows, later), id, hash, author)
         == (Replay(rows, later), Unchanged(FindExact(rows, id, hash).value.version))
    decreases |later|
  {
    if later != [] {
      var r := later[0];
      var rows' := ImportInto(rows, r.id, r.hash, r.author).0;
      OneMoreImport(rows, r, r.id);
      FindSurvives(rows, r, id, hash);
      ReimportFindsVersion(rows', id, hash, later[1..], author);
    }
  }

  function Replay(rows: seq<Row>, requests: seq<Request>): seq<Row>
    decreases |requests|
  {
    if requests == [] then rows
    else Replay(ImportInto(rows, requests[0].id, requests[0].hash, requests[0].author).0, requests[1..])
  }

  lemma FindSurvives(rows: seq<Row>, r: Request, id: Uuid, hash: Hash)
    requires FindExact(rows, id, hash).Some?
    ensures FindExact(ImportInto(rows, r.id, r.hash, r.author).0, id, hash) == FindExact(rows, id, hash)
  {
    if FindExact(rows, r.id, r.hash).None? {
      Snoc(rows, Row(r.id, MaxVersion(rows, r.id) + 1, r.hash, r.author));
    }
  }

  // ----- the protocol, run by one client without interruption -----

  /** The lock of the id is free, or the client's own. */
  ghost predicate MayLock(s: State, c: ClientId, id: Uuid) { s.keyOf(id) in s.locks ==> Holds(s, c, id) }

  /** The current import, answered: what the client sees afterwards, and the answer. */
  ghost predicate ImportedOne(s: State, s': State, c: ClientId) {
    && c in s.clients && c in s'.clients && s.clients[c].todo != []
    && var k, k' := s.clients[c], s'.clients[c];
       var (visible, result) := ImportInto(Visible(s, k), k.todo[0].id, k.todo[0].hash, c);
       && Visible(s', k') == visible && k'.at == Idle && k'.todo == k.todo[1..] && s'.rows == s.rows
       && k'.answers == k.answers + [Answer(k.todo[0], result)]
       && s'.keyOf == s.keyOf && s'.locks == s.locks[s.keyOf(k.todo[0].id) := c]
  }

  /** The state in which client `c` has the lock for its current import. */
  function LockedBy(s: State, c: ClientId): State
    requires c in s.clients && s.clients[c].todo != []
  {
    s.(locks := s.locks[s.keyOf(s.clients[c].todo[0].id) := c])
  }

  /** A state that a run from `from` comes to. */
  ghost predicate Reached(from: State, s: State) { RunsTo(StepOf, from, s) && Inv(s) }

  lemma Go(from: State, s: State, c: ClientId, s': State)
    requires Reached(from, s) && StepOf(s, c, s')
    ensures Reached(from, s')
  {
    StepKeepsInv(s, c, s');
    RunsToStep(StepOf, from, s, s', c);
  }

  lemma IsLockStep(s: State, c: ClientId)
    requires c in s.clients && s.clients[c].at == Idle && s.clients[c].todo != []
    requires MayLock(s, c, s.clients[c].todo[0].id)
    ensures StepOf(s, c, With(LockedBy(s, c), c, s.clients[c].(at := Locked)))
  {
    assert TakeLock(s, c, With(LockedBy(s, c), c, s.clients[c].(at := Locked)));
  }

  lemma IsFindStep(b: State, c: ClientId, k: Client)
    requires k.at == Locked && k.todo != []
    ensures StepOf(With(b, c, k), c, With(b, c, AfterFind(Visible(b, k), k)))
  {
    var t, t' := With(b, c, k), With(b, c, AfterFind(Visible(b, k), k));
    assert t' == With(t, c, AfterFind(Visible(t, k), k));
    assert Find(t, c, t');
  }

  lemma IsCountStep(b: State, c: ClientId, k: Client)
    requires k.at == Missed && k.todo != []
    ensures StepOf(With(b, c, k), c, With(b, c, AfterCount(Visible(b, k), k)))
  {
    var t, t' := With(b, c, k), With(b, c, AfterCount(Visible(b, k), k));
    assert t' == With(t, c, AfterCount(Visible(t, k), k));
    assert Count(t, c, t');
  }

  function AfterSave(k: Client, c: ClientId): Client
    requires k.at.Counted? && k.todo != []
  {
    Done(k, Inserted(k.at.next), k.pending + [NewRow(k, c)])
  }

  lemma IsSaveStep(b: State, c: ClientId, k: Client)
    requires k.at.Counted? && k.todo != [] && !Violates(Visible(b, k), NewRow(k, c))
    requires MayInsert(With(b, c, k), c, NewRow(k, c))
    ensures StepOf(With(b, c, k), c, With(b, c, AfterSave(k, c)))
  {
    var t, t' := With(b, c, k), With(b, c, AfterSave(k, c));
    assert t' == With(t, c, AfterSave(k, c));
    assert Save(t, c, t');
  }

  /** What the client has seen and answered is what the service method does. */
  lemma SameAsService(s: State, c: ClientId, k: Client)
    requires c in s.clients && s.clients[c].todo != [] && k == s.clients[c].(at := Locked)
    ensures var found := FindExact(Visible(s, k), k.todo[0].id, k.todo[0].hash);
            if found.Some? then ImportedOne(s, With(LockedBy(s, c), c, AfterFind(Visible(s, k), k)), c)
            else ImportedOne(s, With(LockedBy(s, c), c, AfterSave(AfterCount(Visible(s, k), k), c)), c)
  {
    Assoc(s.rows, k.pending, [NewRow(AfterCount(Visible(s, k), k), c)]);
  }

  lemma InsertOne(from: State, b: State, c: ClientId, k: Client)
    requires Reached(from, With(b, c, k)) && k.at == Missed && k.todo != []
    ensures Reached(from, With(b, c, AfterSave(AfterCount(Visible(b, k), k), c)))
  {
    var counted := AfterCount(Visible(b, k), k);
    IsCountStep(b, c, k);
    Go(from, With(b, c, k), c, With(b, c, counted));
    InsertIsFree(With(b, c, counted), c);
    IsSaveStep(b, c, counted);
    Go(from, With(b, c, counted), c, With(b, c, AfterSave(counted, c)));
  }

  lemma FindOne(from: State, s: State, c: ClientId, k: Client)
    requires Reached(from, s) && c in s.clients && s.clients[c].at == Idle && s.clients[c].todo != []
    requires MayLock(s, c, s.clients[c].todo[0].id) && k == s.clients[c].(at := Locked)
    ensures Reached(from, With(LockedBy(s, c), c, AfterFind(Visible(s, k), k)))
  {
    var b := LockedBy(s, c);
    IsLockStep(s, c);
    Go(from, s, c, With(b, c, k));
    IsFindStep(b, c, k);
    Go(from, With(b, c, k), c, With(b, c, AfterFind(Visible(b, k), k)));
  }

  /** One import of a transaction, undisturbed, does what the service method does, and answers the same. */
  lemma UndisturbedImport(from: State, s: State, c: ClientId) returns (s': State)
    requires Reached(from, s) && c in s.clients && s.clients[c].at == Idle && s.clients[c].todo != []
    requires MayLock(s, c, s.clients[c].todo[0].id)
    ensures Reached(from, s') && ImportedOne(s, s', c)
  {
    var b, k := LockedBy(s, c), s.clients[c].(at := Locked);
    FindOne(from, s, c, k);
    SameAsService(s, c, k);
    if FindExact(Visible(s, k), k.todo[0].id, k.todo[0].hash).Some? {
      s' := With(b, c, AfterFind(Visible(s, k), k));
    } else {
      InsertOne(from, b, c, k.(at := Missed));
      s' := With(b, c, AfterSave(AfterCount(Visible(s, k), k), c));
    }
  }

  /** The rows after the imports of one transaction. */
  function ImportAll(rows: seq<Row>, todo: seq<Import>, author: ClientId): seq<Row>
    decreases |todo|
  {
    if todo == [] then rows else ImportAll(ImportInto(rows, todo[0].id, todo[0].hash, author).0, todo[1..], author)
  }

  /** A whole transaction, undisturbed, stores what its imports would store one after the other. */
  lemma {:induction false} UndisturbedTransaction(from: State, s: State, c: ClientId) returns (s': State)
    requires Reached(from, s) && c in s.clients && s.clients[c].at == Idle
    requires forall r | r in s.clients[c].todo :: MayLock(s, c, r.id)
    ensures Reached(from, s') && c in s'.clients && s'.clients[c].at == Committed
    ensures s'.rows == ImportAll(Visible(s, s.clients[c]), s.clients[c].todo, c)
    decreases |s.clients[c].todo|
  {
    var k := s.clients[c];
    if k.todo == [] {
      s' := With(s, c, k.(at := Committed, pending := [])).(locks := WithoutLocks(s, c), rows := Visible(s, k));
      assert Commit(s, c, s');
      Go(from, s, c, s');
    } else {
      var t := UndisturbedImport(from, s, c);
      forall r | r in t.clients[c].todo ensures MayLock(t, c, r.id) {
        assert r in k.todo;
        assert MayLock(s, c, r.id);
      }
      s' := UndisturbedTransaction(from, t, c);
    }
  }
}
