/** Importing versions under an advisory lock: evidence and feedback share this protocol.

    Each client is one transaction that makes a sequence of imports.  Every await on the store is one step; the
    rows a client inserted are visible to itself at once and to the others when it commits, which also releases
    its locks. */
module ImportProtocol {
  import opened Ordering
  import opened Runs
  import opened VersionedStore

  /** Unchanged names an existing row; Inserted is reported as created when the version is 1,
      and as updated (evidence) or corrected (feedback) otherwise. */
  datatype Result = Unchanged(version: nat) | Inserted(version: nat)

  datatype Import = Import(id: Uuid, hash: Hash)

  datatype Answer = Answer(request: Import, result: Result)

  datatype Progress = Idle | Locked | Missed | Counted(next: nat) | Conflicted | Committed | Failed | Aborted

  /** What is still to import, where the current import stands, the uncommitted rows, and the answers so far. */
  datatype Client = Client(todo: seq<Import>, at: Progress, pending: seq<Row>, answers: seq<Answer>)

  /** `keyOf` shortens an id to a lock key; ids may share a key. */
  datatype State = State(rows: seq<Row>, locks: map<int, ClientId>, clients: map<ClientId, Client>,
                         keyOf: Uuid -> int)

  /** The key for an evidence id: its first eight bytes as a signed number of 64 bits. */
  function EvidenceLockKey(id: Uuid): (key: int)
    ensures -0x8000_0000_0000_0000 <= key < 0x8000_0000_0000_0000
    ensures (key - id / 0x1_0000_0000_0000_0000) % 0x1_0000_0000_0000_0000 == 0
  {
    var high := (id / 0x1_0000_0000_0000_0000) % 0x1_0000_0000_0000_0000;
    if high < 0x8000_0000_0000_0000 then high else high - 0x1_0000_0000_0000_0000
  }

  predicate Finished(p: Progress) { p.Committed? || p.Failed? || p.Aborted? }

  /** Inside one import, after its lock. */
  predicate Importing(p: Progress) { p.Locked? || p.Missed? || p.Counted? || p.Conflicted? }

  // ----- steps of client c -----

  function With(s: State, c: ClientId, k: Client): State { s.(clients := s.clients[c := k]) }

  /** What the client reads: the committed rows and its own. */
  function Visible(s: State, k: Client): seq<Row> { s.rows + k.pending }

  function WithoutLocks(s: State, c: ClientId): map<int, ClientId> {
    map key | key in s.locks && s.locks[key] != c :: s.locks[key]
  }

  predicate Holds(s: State, c: ClientId, id: Uuid) { s.keyOf(id) in s.locks && s.locks[s.keyOf(id)] == c }

  /** The current import is answered, and the next one is up. */
  function Done(k: Client, result: Result, pending: seq<Row>): Client
    requires k.todo != []
  {
    Client(k.todo[1..], Idle, pending, k.answers + [Answer(k.todo[0], result)])
  }

  /** A new transaction arrives, with the imports it is going to make. */
  ghost predicate Arrive(s: State, c: ClientId, todo: seq<Import>, s': State) {
    c !in s.clients && s' == With(s, c, Client(todo, Idle, [], []))
  }

  /** A transaction may take a lock it already holds. */
  ghost predicate TakeLock(s: State, c: ClientId, s': State) {
    && c in s.clients && s.clients[c].at == Idle && s.clients[c].todo != []
    && var k, key := s.clients[c], s.keyOf(s.clients[c].todo[0].id);
       && (key in s.locks ==> s.locks[key] == c)
       && s' == With(s, c, k.(at := Locked)).(locks := s.locks[key := c])
  }

  function AfterFind(visible: seq<Row>, k: Client): Client
    requires k.todo != []
  {
    var found := FindExact(visible, k.todo[0].id, k.todo[0].hash);
    if found.Some? then Done(k, Unchanged(found.value.version), k.pending) else k.(at := Missed)
  }

  ghost predicate Find(s: State, c: ClientId, s': State) {
    && c in s.clients && s.clients[c].at == Locked && s.clients[c].todo != []
    && s' == With(s, c, AfterFind(Visible(s, s.clients[c]), s.clients[c]))
  }

  function AfterCount(visible: seq<Row>, k: Client): Client
    requires k.todo != []
  {
    k.(at := Counted(MaxVersion(visible, k.todo[0].id) + 1))
  }

  ghost predicate Count(s: State, c: ClientId, s': State) {
    && c in s.clients && s.clients[c].at == Missed && s.clients[c].todo != []
    && s' == With(s, c, AfterCount(Visible(s, s.clients[c]), s.clients[c]))
  }

  function NewRow(k: Client, c: ClientId): Row
    requires k.at.Counted? && k.todo != []
  {
    Row(k.todo[0].id, k.at.next, k.todo[0].hash, c)
  }

  /** An insert waits while another open transaction holds a clashing row. */
  ghost predicate MayInsert(s: State, c: ClientId, row: Row) {
    forall d, r | d in s.clients && d != c && r in s.clients[d].pending :: !Clash(r, row)
  }

  ghost predicate Save(s: State, c: ClientId, s': State) {
    && c in s.clients && s.clients[c].at.Counted? && s.clients[c].todo != []
    && var k := s.clients[c];
       var row := NewRow(k, c);
       if Violates(Visible(s, k), row) then s' == With(s, c, k.(at := Conflicted))
       else MayInsert(s, c, row) && s' == With(s, c, Done(k, Inserted(row.version), k.pending + [row]))
  }

  /** After a refused insert: the row may have been stored meanwhile; if not, the error ends the transaction. */
  ghost predicate Reread(s: State, c: ClientId, s': State) {
    && c in s.clients && s.clients[c].at == Conflicted && s.clients[c].todo != []
    && var k := s.clients[c];
       var found := FindExact(Visible(s, k), k.todo[0].id, k.todo[0].hash);
       s' == if found.Some? then With(s, c, Done(k, Unchanged(found.value.version), k.pending))
             else With(s, c, k.(at := Failed, pending := [])).(locks := WithoutLocks(s, c))
  }

  ghost predicate Commit(s: State, c: ClientId, s': State) {
    && c in s.clients && s.clients[c].at == Idle && s.clients[c].todo == []
    && var k := s.clients[c];
       s' == With(s, c, k.(at := Committed, pending := [])).(locks := WithoutLocks(s, c), rows := Visible(s, k))
  }

  ghost predicate Abort(s: State, c: ClientId, s': State) {
    && c in s.clients && !Finished(s.clients[c].at)
    && s' == With(s, c, s.clients[c].(at := Aborted, pending := [])).(locks := WithoutLocks(s, c))
  }

  ghost predicate StepOf(s: State, c: ClientId, s': State) {
    || (exists todo :: Arrive(s, c, todo, s')) || TakeLock(s, c, s') || Find(s, c, s') || Count(s, c, s')
    || Save(s, c, s') || Reread(s, c, s') || Commit(s, c, s') || Abort(s, c, s')
  }

  ghost predicate Init(s: State) { s.rows == [] && s.locks == map[] && s.clients == map[] }

  // ----- rows of different ids do not disturb each other -----

  ghost predicate Apart(p: seq<Row>, q: seq<Row>) {
    forall a, b | a in p && b in q :: a.id != b.id
  }

  ghost predicate Without(rows: seq<Row>, id: Uuid) { forall r | r in rows :: r.id != id }

  lemma {:induction false} WithoutAdds(rows: seq<Row>, p: seq<Row>, id: Uuid, hash: Hash)
    requires Without(p, id)
    ensures MaxVersion(rows + p, id) == MaxVersion(rows, id)
    ensures HoldsHash(rows + p, id, hash) <==> HoldsHash(rows, id, hash)
  {
    if p == [] {
      assert rows + p == rows;
    } else {
      var front, last := p[..|p| - 1], p[|p| - 1];
      assert last in p && forall r | r in front :: r in p;
      WithoutAdds(rows, front, id, hash);
      assert rows + p == (rows + front) + [last];
      MaxAppend(rows + front, last, id);
      HoldsHashSnoc(rows + front, last, id, hash);
    }
  }

  lemma {:induction false} MiddleAdds(rows: seq<Row>, p: seq<Row>, q: seq<Row>, id: Uuid, hash: Hash)
    requires Without(p, id)
    ensures MaxVersion(rows + p + q, id) == MaxVersion(rows + q, id)
    ensures HoldsHash(rows + p + q, id, hash) <==> HoldsHash(rows + q, id, hash)
    decreases |q|
  {
    if q == [] {
      assert rows + p + q == rows + p && rows + q == rows;
      WithoutAdds(rows, p, id, hash);
    } else {
      var front, last := q[..|q| - 1], q[|q| - 1];
      MiddleAdds(rows, p, front, id, hash);
      assert rows + p + q == (rows + p + front) + [last] && rows + q == (rows + front) + [last];
      MaxAppend(rows + p + front, last, id);
      MaxAppend(rows + front, last, id);
      HoldsHashSnoc(rows + p + front, last, id, hash);
      HoldsHashSnoc(rows + front, last, id, hash);
    }
  }

  lemma DenseLast(rows: seq<Row>, last: Row)
    requires Dense(rows + [last])
    ensures Dense(rows) && last.version == MaxVersion(rows, last.id) + 1 && !HoldsHash(rows, last.id, last.hash)
  {
    Snoc(rows, last);
  }

  lemma JoinLast(rows: seq<Row>, p: seq<Row>, front: seq<Row>, last: Row)
    requires Dense(rows + p + front) && Dense((rows + front) + [last]) && Without(p, last.id)
    ensures Dense(rows + p + (front + [last]))
  {
    DenseLast(rows + front, last);
    MiddleAdds(rows, p, front, last.id, last.hash);
    DenseAppend(rows + p + front, last);
    Assoc(rows + p, front, [last]);
  }

  /** Two extensions for different ids can be joined. */
  lemma {:induction false} DenseJoin(rows: seq<Row>, p: seq<Row>, q: seq<Row>)
    requires Dense(rows + p) && Dense(rows + q) && Apart(p, q)
    ensures Dense(rows + p + q)
    decreases |q|
  {
    if q == [] {
      assert rows + p + q == rows + p;
    } else {
      var front, last := q[..|q| - 1], q[|q| - 1];
      assert q == front + [last];
      Assoc(rows, front, [last]);
      DenseLast(rows + front, last);
      DenseJoin(rows, p, front);
      JoinLast(rows, p, front, last);
    }
  }

  // ----- the invariant -----

  ghost predicate IsNext(rows: seq<Row>, id: Uuid, hash: Hash, version: nat) {
    version == MaxVersion(rows, id) + 1 && !HoldsHash(rows, id, hash)
  }

  /** An answer names a row; an inserted one is the client's own. */
  ghost predicate AnswerOk(rows: seq<Row>, c: ClientId, a: Answer) {
    && Stored(rows, a.request.id, a.result.version, a.request.hash)
    && (a.result.Inserted? ==> Row(a.request.id, a.result.version, a.request.hash, c) in rows)
  }

  ghost predicate AnswersOk(rows: seq<Row>, c: ClientId, k: Client) {
    forall a | a in k.answers :: AnswerOk(rows, c, a)
  }

  /** What the current import knows about the visible rows. */
  ghost predicate KnowsOk(visible: seq<Row>, k: Client) {
    && (Importing(k.at) ==> k.todo != [])
    && match k.at
       case Missed => !HoldsHash(visible, k.todo[0].id, k.todo[0].hash)
       case Counted(n) => IsNext(visible, k.todo[0].id, k.todo[0].hash, n)
       case Conflicted => false
       case Failed => false
       case _ => true
  }

  /** An inserted row was reported. */
  ghost predicate Reported(k: Client, r: Row) {
    Answer(Import(r.id, r.hash), Inserted(r.version)) in k.answers
  }

  ghost predicate PendingOk(s: State, c: ClientId, k: Client) {
    && Dense(Visible(s, k)) && (Finished(k.at) ==> k.pending == [])
    && forall r | r in k.pending :: r.author == c && Holds(s, c, r.id) && Reported(k, r)
  }

  ghost predicate ClientOk(s: State, c: ClientId, k: Client) {
    && PendingOk(s, c, k)
    && KnowsOk(Visible(s, k), k)
    && (Importing(k.at) ==> Holds(s, c, k.todo[0].id))
    && (k.at.Aborted? || AnswersOk(Visible(s, k), c, k))
  }

  /** Every row was committed by the client it names, which reported it. */
  ghost predicate Authored(s: State) {
    forall r | r in s.rows ::
      r.author in s.clients && s.clients[r.author].at.Committed? && Reported(s.clients[r.author], r)
  }

  ghost predicate ClientsOk(s: State) { forall c | c in s.clients :: ClientOk(s, c, s.clients[c]) }

  ghost predicate Inv(s: State) { Dense(s.rows) && Authored(s) && ClientsOk(s) }

  /** A move of one client that commits nothing and leaves the locks of the others. */
  ghost predicate Private(s: State, c: ClientId, k: Client, locks: map<int, ClientId>) {
    && (c in s.clients ==> !s.clients[c].at.Committed?)
    && forall key | key in s.locks && s.locks[key] != c :: key in locks && locks[key] == s.locks[key]
  }

  lemma OtherUnmoved(s: State, s': State, c: ClientId, d: ClientId, k: Client)
    requires ClientOk(s, d, k) && d != c && s'.rows == s.rows && s'.keyOf == s.keyOf
    requires forall key | key in s.locks && s.locks[key] != c :: key in s'.locks && s'.locks[key] == s.locks[key]
    ensures ClientOk(s', d, k)
  {
    forall id | Holds(s, d, id) ensures Holds(s', d, id) {
      var key := s.keyOf(id);
      assert key in s.locks && s.locks[key] == d;
      assert s'.keyOf(id) == key;
    }
  }

  lemma PrivateKeepsInv(s: State, c: ClientId, k: Client, locks: map<int, ClientId>)
    requires Inv(s) && Private(s, c, k, locks) && ClientOk(With(s, c, k).(locks := locks), c, k)
    ensures Inv(With(s, c, k).(locks := locks))
  {
    var s' := With(s, c, k).(locks := locks);
    forall d | d in s'.clients ensures ClientOk(s', d, s'.clients[d]) {
      if d != c {
        OtherUnmoved(s, s', c, d, s.clients[d]);
      }
    }
  }

  /** A client's condition does not depend on the client table. */
  lemma OwnUnmoved(s: State, s': State, c: ClientId, k: Client)
    requires ClientOk(s, c, k) && s'.rows == s.rows && s'.keyOf == s.keyOf
    requires forall id | Holds(s, c, id) :: Holds(s', c, id)
    ensures ClientOk(s', c, k)
  {
  }

  /** A move of one client that commits nothing and touches no lock. */
  lemma QuietKeeps(s: State, c: ClientId, k: Client)
    requires Inv(s) && ClientOk(s, c, k) && (c in s.clients ==> !s.clients[c].at.Committed?)
    ensures Inv(With(s, c, k))
  {
    var s' := With(s, c, k);
    assert forall id | Holds(s, c, id) :: Holds(s', c, id);
    OwnUnmoved(s, s', c, k);
    PrivateKeepsInv(s, c, k, s.locks);
  }

  /** The current import goes on, and what it knows is right. */
  lemma AtMoves(s: State, c: ClientId, k: Client, at: Progress)
    requires ClientOk(s, c, k) && !Finished(k.at) && !Finished(at)
    requires KnowsOk(Visible(s, k), k.(at := at))
    requires k.todo != [] && Holds(s, c, k.todo[0].id)
    ensures ClientOk(s, c, k.(at := at))
  {
    var k' := k.(at := at);
    assert Visible(s, k') == Visible(s, k);
    forall r | r in k.pending ensures Reported(k', r) {
      assert Reported(k, r);
    }
  }

  lemma ArriveKeeps(s: State, c: ClientId, todo: seq<Import>, s': State)
    requires Inv(s) && Arrive(s, c, todo, s')
    ensures Inv(s')
  {
    assert s.rows + [] == s.rows;
    QuietKeeps(s, c, s'.clients[c]);
  }

  lemma TakeLockKeeps(s: State, c: ClientId, s': State)
    requires Inv(s) && TakeLock(s, c, s')
    ensures Inv(s')
  {
    var k := s.clients[c];
    assert ClientOk(s, c, k);
    var locked := s.(locks := s'.locks);
    forall id | Holds(s, c, id) ensures Holds(locked, c, id) {
    }
    OwnUnmoved(s, locked, c, k);
    AtMoves(locked, c, k, Locked);
    OwnUnmoved(locked, s', c, s'.clients[c]);
    PrivateKeepsInv(s, c, s'.clients[c], s'.locks);
  }

  /** Answering the current import by a visible row. */
  lemma FoundAnswer(s: State, c: ClientId, k: Client, row: Row)
    requires ClientOk(s, c, k) && k.todo != [] && !Finished(k.at)
    requires row in Visible(s, k) && row.id == k.todo[0].id && row.hash == k.todo[0].hash
    ensures ClientOk(s, c, Done(k, Unchanged(row.version), k.pending))
  {
    var k' := Done(k, Unchanged(row.version), k.pending);
    assert Stored(Visible(s, k), row.id, row.version, row.hash);
    forall a | a in k'.answers ensures AnswerOk(Visible(s, k'), c, a) {
      if a in k.answers {
        assert AnswerOk(Visible(s, k), c, a);
      }
    }
    forall r | r in k.pending ensures Reported(k', r) {
      assert Reported(k, r);
    }
  }

  lemma FindOk(s: State, c: ClientId, k: Client)
    requires ClientOk(s, c, k) && k.at == Locked && k.todo != []
    ensures ClientOk(s, c, AfterFind(Visible(s, k), k))
  {
    var found := FindExact(Visible(s, k), k.todo[0].id, k.todo[0].hash);
    FindExactFacts(Visible(s, k), k.todo[0].id, k.todo[0].hash);
    if found.Some? {
      FoundAnswer(s, c, k, found.value);
    } else {
      AtMoves(s, c, k, Missed);
    }
  }

  lemma FindKeeps(s: State, c: ClientId, s': State)
    requires Inv(s) && Find(s, c, s')
    ensures Inv(s')
  {
    FindOk(s, c, s.clients[c]);
    QuietKeeps(s, c, s'.clients[c]);
  }

  lemma CountKeeps(s: State, c: ClientId, s': State)
    requires Inv(s) && Count(s, c, s')
    ensures Inv(s')
  {
    var k := s.clients[c];
    AtMoves(s, c, k, AfterCount(Visible(s, k), k).at);
    QuietKeeps(s, c, s'.clients[c]);
  }

  /** While a client holds the lock its computed version stays the next one. */
  lemma NextIsFree(rows: seq<Row>, row: Row)
    requires Dense(rows) && IsNext(rows, row.id, row.hash, row.version)
    ensures !Violates(rows, row)
  {
    VersionsAreOneToN(rows, row.id, row.version);
  }

  lemma MoreAnswers(visible: seq<Row>, row: Row, c: ClientId, k: Client, a: Answer)
    requires AnswersOk(visible, c, k) && a == Answer(Import(row.id, row.hash), Inserted(row.version)) && row.author == c
    ensures forall b | b in k.answers + [a] :: AnswerOk(visible + [row], c, b)
  {
    assert row in visible + [row];
    forall b | b in k.answers + [a] ensures AnswerOk(visible + [row], c, b) {
      if b in k.answers {
        assert AnswerOk(visible, c, b);
        StoredAppend(visible, [row], b.request.id, b.result.version, b.request.hash);
      }
    }
  }

  lemma MorePending(s: State, c: ClientId, k: Client, k': Client, row: Row)
    requires PendingOk(s, c, k) && !Finished(k'.at) && k'.pending == k.pending + [row]
    requires IsNext(Visible(s, k), row.id, row.hash, row.version) && row.author == c && Holds(s, c, row.id)
    requires Reported(k', row) && forall a | a in k.answers :: a in k'.answers
    ensures PendingOk(s, c, k') && Visible(s, k') == Visible(s, k) + [row]
  {
    Assoc(s.rows, k.pending, [row]);
    DenseAppend(Visible(s, k), row);
    forall r | r in k'.pending ensures r.author == c && Holds(s, c, r.id) && Reported(k', r) {
      if r in k.pending {
        assert Reported(k, r);
      }
    }
  }

  /** Answering the current import by a row of its own. */
  lemma InsertedAnswer(s: State, c: ClientId, k: Client)
    requires ClientOk(s, c, k) && k.at.Counted? && k.todo != []
    ensures ClientOk(s, c, Done(k, Inserted(k.at.next), k.pending + [NewRow(k, c)]))
  {
    var row := NewRow(k, c);
    MorePending(s, c, k, Done(k, Inserted(k.at.next), k.pending + [row]), row);
    MoreAnswers(Visible(s, k), row, c, k, Answer(k.todo[0], Inserted(k.at.next)));
  }

  lemma SaveKeeps(s: State, c: ClientId, s': State)
    requires Inv(s) && Save(s, c, s')
    ensures Inv(s')
  {
    var k := s.clients[c];
    assert ClientOk(s, c, k);
    NextIsFree(Visible(s, k), NewRow(k, c));
    InsertedAnswer(s, c, k);
    QuietKeeps(s, c, s'.clients[c]);
  }

  lemma AbortKeeps(s: State, c: ClientId, s': State)
    requires Inv(s) && Abort(s, c, s')
    ensures Inv(s')
  {
    assert s.rows + [] == s.rows;
    assert ClientOk(s, c, s.clients[c]);
    PrivateKeepsInv(s, c, s'.clients[c], s'.locks);
  }

  /** The open rows of two clients are for different ids: each holds the locks of its own. */
  lemma PendingApart(s: State, c: ClientId, d: ClientId)
    requires ClientsOk(s) && c in s.clients && d in s.clients && c != d
    ensures Apart(s.clients[c].pending, s.clients[d].pending)
    ensures Importing(s.clients[d].at) ==>
              s.clients[d].todo != [] && Without(s.clients[c].pending, s.clients[d].todo[0].id)
  {
    assert ClientOk(s, c, s.clients[c]) && ClientOk(s, d, s.clients[d]);
    forall a, b | a in s.clients[c].pending && b in s.clients[d].pending ensures a.id != b.id {
      assert Holds(s, c, a.id) && Holds(s, d, b.id);
    }
    if Importing(s.clients[d].at) {
      forall a | a in s.clients[c].pending ensures a.id != s.clients[d].todo[0].id {
        assert Holds(s, c, a.id);
      }
    }
  }

  lemma PublishedAnswers(rows: seq<Row>, p: seq<Row>, q: seq<Row>, d: ClientId, k: Client)
    requires AnswersOk(rows + q, d, k)
    ensures AnswersOk(rows + p + q, d, k)
  {
    forall a | a in k.answers ensures AnswerOk(rows + p + q, d, a) {
      assert AnswerOk(rows + q, d, a);
      var r :| r in rows + q && r.id == a.request.id && r.version == a.result.version && r.hash == a.request.hash;
      assert r in rows + p + q;
    }
  }

  lemma PublishOther(s: State, c: ClientId, s': State, d: ClientId)
    requires Inv(s) && Commit(s, c, s') && d in s.clients && d != c
    ensures ClientOk(s', d, s.clients[d])
  {
    var p, k := s.clients[c].pending, s.clients[d];
    assert ClientOk(s, c, s.clients[c]) && ClientOk(s, d, k);
    PendingApart(s, c, d);
    DenseJoin(s.rows, p, k.pending);
    assert Visible(s', k) == s.rows + p + k.pending;
    if Importing(k.at) {
      MiddleAdds(s.rows, p, k.pending, k.todo[0].id, k.todo[0].hash);
    }
    if !k.at.Aborted? {
      PublishedAnswers(s.rows, p, k.pending, d, k);
    }
    forall r | r in k.pending ensures Holds(s', d, r.id) {
      assert Holds(s, d, r.id);
    }
  }

  lemma PublishOwn(s: State, c: ClientId, s': State)
    requires Inv(s) && Commit(s, c, s')
    ensures ClientOk(s', c, s'.clients[c]) && Dense(s'.rows)
  {
    assert ClientOk(s, c, s.clients[c]);
    assert s'.rows + [] == s'.rows;
  }

  lemma PublishAuthored(s: State, c: ClientId, s': State)
    requires Inv(s) && Commit(s, c, s')
    ensures Authored(s')
  {
    var k := s.clients[c];
    assert ClientOk(s, c, k);
    forall r | r in s'.rows
      ensures r.author in s'.clients && s'.clients[r.author].at.Committed? && Reported(s'.clients[r.author], r)
    {
      if r in s.rows {
        assert r.author != c;
      } else {
        assert r in k.pending && Reported(k, r);
      }
    }
  }

  lemma CommitKeeps(s: State, c: ClientId, s': State)
    requires Inv(s) && Commit(s, c, s')
    ensures Inv(s')
  {
    PublishOwn(s, c, s');
    PublishAuthored(s, c, s');
    forall d | d in s'.clients ensures ClientOk(s', d, s'.clients[d]) {
      if d != c {
        PublishOther(s, c, s', d);
      }
    }
  }

  lemma NeverReread(s: State, c: ClientId, s': State)
    requires Inv(s)
    ensures !Reread(s, c, s')
  {
    if c in s.clients {
      assert ClientOk(s, c, s.clients[c]);
    }
  }

  lemma StepKeepsInv(s: State, c: ClientId, s': State)
    requires Inv(s) && StepOf(s, c, s')
    ensures Inv(s')
  {
    NeverReread(s, c, s');
    if TakeLock(s, c, s') {
      TakeLockKeeps(s, c, s');
    } else if Find(s, c, s') {
      FindKeeps(s, c, s');
    } else if Count(s, c, s') {
      CountKeeps(s, c, s');
    } else if Save(s, c, s') {
      SaveKeeps(s, c, s');
    } else if Commit(s, c, s') {
      CommitKeeps(s, c, s');
    } else if Abort(s, c, s') {
      AbortKeeps(s, c, s');
    } else {
      var todo :| Arrive(s, c, todo, s');
      ArriveKeeps(s, c, todo, s');
    }
  }

  /** Over every interleaving, the invariant holds in every state. */
  lemma RunKeepsInv(run: seq<State>, i: nat)
    requires IsRun(StepOf, run) && Init(run[0]) && i < |run|
    ensures Inv(run[i])
  {
    forall s: State, c: ClientId, t: State | Inv(s) && StepOf(s, c, t) ensures Inv(t) {
      StepKeepsInv(s, c, t);
    }
    KeptByRun(StepOf, Inv, run, 0, i);
  }

  // ----- what a reader of the table can rely on -----

  /** `t` keeps the rows of `s` in place, every committed client, and the lock keys. */
  ghost predicate Extends(s: State, t: State) {
    && s.rows <= t.rows && t.keyOf == s.keyOf
    && forall c | c in s.clients && s.clients[c].at.Committed? :: c in t.clients && t.clients[c] == s.clients[c]
  }

  /** Rows are append-only, and committed answers are final. */
  lemma RunOnlyAppends(run: seq<State>, i: nat, j: nat)
    requires IsRun(StepOf, run) && i <= j < |run|
    ensures Extends(run[i], run[j])
  {
    var keeps := (t: State) => Extends(run[i], t);
    forall s: State, c: ClientId, t: State | keeps(s) && StepOf(s, c, t) ensures keeps(t) {
      assert Extends(s, t);
    }
    KeptByRun(StepOf, keeps, run, i, j);
  }

  /** In every run the versions stored for an id are exactly 1..n, a version or a hash names one row,
      and each row was written by exactly one transaction, which committed and reported it. */
  lemma TableFacts(run: seq<State>, i: nat, id: Uuid)
    requires IsRun(StepOf, run) && Init(run[0]) && i < |run|
    ensures forall v: nat :: HoldsVersion(run[i].rows, id, v) <==> 1 <= v <= MaxVersion(run[i].rows, id)
    ensures forall a, b | a in run[i].rows && b in run[i].rows && a.id == id && b.id == id ::
              a.version == b.version || a.hash == b.hash ==> a == b
    ensures Authored(run[i])
  {
    RunKeepsInv(run, i);
    var rows := run[i].rows;
    forall v: nat ensures HoldsVersion(rows, id, v) <==> 1 <= v <= MaxVersion(rows, id) {
      VersionsAreOneToN(rows, id, v);
    }
    forall a, b | a in rows && b in rows && a.id == id && b.id == id
      ensures a.version == b.version || a.hash == b.hash ==> a == b
    {
      VersionNamesRow(rows, a, b);
    }
  }

  /** Each answer of a committed transaction names a stored row with the content that was sent; two transactions
      never both report inserting one version, or one content, of an id. */
  lemma AnswersNameRows(run: seq<State>, i: nat, c: ClientId, a: Answer)
    requires IsRun(StepOf, run) && Init(run[0]) && i < |run|
    requires c in run[i].clients && run[i].clients[c].at.Committed? && a in run[i].clients[c].answers
    ensures Stored(run[i].rows, a.request.id, a.result.version, a.request.hash)
    ensures forall d, b | d in run[i].clients && d != c && run[i].clients[d].at.Committed?
              && b in run[i].clients[d].answers && b.request.id == a.request.id
              && a.result.Inserted? && b.result.Inserted? ::
              a.result.version != b.result.version && a.request.hash != b.request.hash
  {
    RunKeepsInv(run, i);
    var s := run[i];
    CommittedAnswer(s, c, a);
    forall d, b | d in s.clients && d != c && s.clients[d].at.Committed? && b in s.clients[d].answers
                  && b.request.id == a.request.id && a.result.Inserted? && b.result.Inserted?
      ensures a.result.version != b.result.version && a.request.hash != b.request.hash
    {
      CommittedAnswer(s, d, b);
      VersionNamesRow(s.rows, Row(a.request.id, a.result.version, a.request.hash, c),
                      Row(b.request.id, b.result.version, b.request.hash, d));
    }
  }

  lemma CommittedAnswer(s: State, c: ClientId, a: Answer)
    requires Inv(s) && c in s.clients && s.clients[c].at.Committed? && a in s.clients[c].answers
    ensures AnswerOk(s.rows, c, a)
  {
    assert ClientOk(s, c, s.clients[c]);
    assert s.rows + [] == s.rows;
  }

  lemma InsertIsFree(s: State, c: ClientId)
    requires Inv(s) && c in s.clients && s.clients[c].at.Counted?
    ensures s.clients[c].todo != [] && !Violates(Visible(s, s.clients[c]), NewRow(s.clients[c], c))
    ensures MayInsert(s, c, NewRow(s.clients[c], c))
  {
    var k := s.clients[c];
    assert ClientOk(s, c, k);
    NextIsFree(Visible(s, k), NewRow(k, c));
    forall d, r | d in s.clients && d != c && r in s.clients[d].pending ensures !Clash(r, NewRow(k, c)) {
      PendingApart(s, d, c);
    }
  }

  /** The lock makes the branch for a lost race unreachable, and no insert ever waits, however many imports a
      transaction makes. */
  lemma RaceNeverLost(run: seq<State>, i: nat, c: ClientId)
    requires IsRun(StepOf, run) && Init(run[0]) && i < |run| && c in run[i].clients
    ensures run[i].clients[c].at != Conflicted && run[i].clients[c].at != Failed
    ensures run[i].clients[c].at.Counted? ==>
              && run[i].clients[c].todo != []
              && !Violates(Visible(run[i], run[i].clients[c]), NewRow(run[i].clients[c], c))
              && MayInsert(run[i], c, NewRow(run[i].clients[c], c))
  {
    RunKeepsInv(run, i);
    assert ClientOk(run[i], c, run[i].clients[c]);
    if run[i].clients[c].at.Counted? {
      InsertIsFree(run[i], c);
    }
  }

  /** Two evidence imports that are under way at once are of traces whose ids differ in their first eight bytes. */
  lemma EvidenceImportsSerialized(run: seq<State>, i: nat, c: ClientId, d: ClientId)
    requires IsRun(StepOf, run) && Init(run[0]) && i < |run| && run[0].keyOf == EvidenceLockKey
    requires c in run[i].clients && d in run[i].clients && c != d
    requires Importing(run[i].clients[c].at) && Importing(run[i].clients[d].at)
    ensures run[i].clients[c].todo != [] && run[i].clients[d].todo != []
    ensures var a, b := run[i].clients[c].todo[0].id, run[i].clients[d].todo[0].id;
            (a / 0x1_0000_0000_0000_0000) % 0x1_0000_0000_0000_0000
            != (b / 0x1_0000_0000_0000_0000) % 0x1_0000_0000_0000_0000
  {
    RunKeepsInv(run, i);
    RunOnlyAppends(run, 0, i);
    assert ClientOk(run[i], c, run[i].clients[c]) && ClientOk(run[i], d, run[i].clients[d]);
  }
}
