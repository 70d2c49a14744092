/** Saving case versions without a lock: the service for one caller, and every interleaving of many. */
module RegressionCases {
  import opened Ordering
  import opened VersionedStore
  import opened Runs

  datatype Status = Created | Updated | Unchanged

  datatype Reply = ReviewRequired | InvalidBundle | CaseNotFound
                 | Saved(status: Status, version: nat, hash: Hash)

  /** The answer that a stored row gives to a caller who sent `hash`. */
  function ReplyFrom(row: Row, hash: Hash): Reply {
    Saved(if row.hash == hash then Unchanged else Updated, row.version, row.hash)
  }

  function NextVersion(latest: Option<Row>): nat {
    match latest
    case None => 1
    case Some(row) => row.version + 1
  }

  function InsertedStatus(latest: Option<Row>): Status { if latest.Some? then Updated else Created }

  /** The answer after a refused insert. */
  function RefusedReply(latest: Option<Row>, hash: Hash): Reply {
    match latest
    case None => CaseNotFound
    case Some(row) => ReplyFrom(row, hash)
  }

  // ----- one caller -----

  /** The table and the answer after one save. */
  function SaveInto(rows: seq<Row>, id: Uuid, hash: Hash, author: ClientId): (seq<Row>, Reply) {
    var latest := Latest(rows, id);
    if latest.Some? && latest.value.hash == hash then (rows, ReplyFrom(latest.value, hash))
    else
      var row := Row(id, NextVersion(latest), hash, author);
      if Violates(rows, row) then (rows, RefusedReply(latest, hash))
      else (rows + [row], Saved(InsertedStatus(latest), row.version, hash))
  }

  datatype Bundle = Bundle(scenario: nat, approved: bool, contentHash: Option<Hash>, computedHash: Hash)

  class CaseLibrary {
    var rows: seq<Row>

    constructor ()
      ensures rows == []
    {
      rows := [];
    }

    method LatestCase(id: Uuid) returns (r: Option<Row>)
      ensures r == Latest(rows, id)
    {
      r := None;
      for i := 0 to |rows|
        invariant r == Latest(rows[..i], id)
      {
        assert rows[..i + 1][..i] == rows[..i];
        if rows[i].id == id && (r.None? || rows[i].version > r.value.version) {
          r := Some(rows[i]);
        }
      }
      assert rows[..|rows|] == rows;
    }

    method InsertVersion(row: Row) returns (saved: bool)
      modifies this
      ensures saved <==> !Violates(old(rows), row)
      ensures rows == if saved then old(rows) + [row] else old(rows)
    {
      saved := !Violates(rows, row);
      if saved {
        rows := rows + [row];
      }
    }

    /** `caseId` gives the stable id of a scenario and source type. */
    method SaveCase(b: Bundle, sourceType: nat, caseId: (nat, nat) -> Uuid, author: ClientId) returns (reply: Reply)
      modifies this
      ensures !b.approved ==> reply == ReviewRequired && rows == old(rows)
      ensures b.approved && b.contentHash != Some(b.computedHash) ==> reply == InvalidBundle && rows == old(rows)
      ensures b.approved && b.contentHash == Some(b.computedHash) ==>
                (rows, reply) == SaveInto(old(rows), caseId(b.scenario, sourceType), b.computedHash, author)
    {
      if !b.approved {
        return ReviewRequired;
      }
      if b.contentHash.None? || b.contentHash.value != b.computedHash {
        return InvalidBundle;
      }
      var id, hash := caseId(b.scenario, sourceType), b.contentHash.value;
      var latest := LatestCase(id);
      if latest.Some? && latest.value.hash == hash {
        return Saved(Unchanged, latest.value.version, latest.value.hash);
      }
      var version := if latest.Some? then latest.value.version + 1 else 1;
      var saved := InsertVersion(Row(id, version, hash, author));
      if !saved {
        latest := LatestCase(id);
        return RefusedReply(latest, hash);
      }
      reply := Saved(if latest.Some? then Updated else Created, version, hash);
    }
  }

  /** When the content that was sent is the content that the answer names. */
  predicate NamesRequest(rows: seq<Row>, id: Uuid, hash: Hash) {
    var latest := Latest(rows, id);
    !HoldsHash(rows, id, hash) || (latest.Some? && latest.value.hash == hash)
  }

  lemma SaveKeepsDense(rows: seq<Row>, id: Uuid, hash: Hash, author: ClientId)
    requires Dense(rows)
    ensures Dense(SaveInto(rows, id, hash, author).0)
    ensures SaveInto(rows, id, hash, author).0 == if HoldsHash(rows, id, hash) then rows
              else rows + [Row(id, MaxVersion(rows, id) + 1, hash, author)]
  {
    NextVersionFits(rows, id);
    var row := Row(id, NextVersion(Latest(rows, id)), hash, author);
    if HoldsHash(rows, id, hash) {
      assert Violates(rows, row);
    } else {
      LatestHashStored(rows, id);
      DenseAppend(rows, row);
    }
  }

  lemma NextVersionFits(rows: seq<Row>, id: Uuid)
    requires Dense(rows)
    ensures NextVersion(Latest(rows, id)) == MaxVersion(rows, id) + 1
    ensures !HoldsVersion(rows, id, MaxVersion(rows, id) + 1)
  {
    LatestFacts(rows, id);
    VersionsAreOneToN(rows, id, MaxVersion(rows, id) + 1);
  }

  lemma LatestHashStored(rows: seq<Row>, id: Uuid)
    ensures Latest(rows, id).Some? ==> HoldsHash(rows, id, Latest(rows, id).value.hash)
  {
    LatestFacts(rows, id);
  }

  /** A save always answers with a stored row; the row holds the content sent exactly when that content
      is new to the case or is its newest version.  Sending an older content again stores nothing and
      answers, as updated, the newest row. */
  lemma SaveAnswers(rows: seq<Row>, id: Uuid, hash: Hash, author: ClientId)
    requires Dense(rows)
    ensures var (rows', reply) := SaveInto(rows, id, hash, author);
            && reply.Saved?
            && Latest(rows', id).Some?
            && reply.version == Latest(rows', id).value.version && reply.hash == Latest(rows', id).value.hash
            && (reply.hash == hash <==> NamesRequest(rows, id, hash))
            && (reply.hash != hash ==> rows' == rows && reply.status == Updated)
  {
    SaveKeepsDense(rows, id, hash, author);
    LatestFacts(rows, id);
    var latest := Latest(rows, id);
    var row := Row(id, NextVersion(latest), hash, author);
    if !HoldsHash(rows, id, hash) {
      Snoc(rows, row);
      VersionsAreOneToN(rows, id, row.version);
    } else {
      var r :| r in rows && r.id == id && r.hash == hash;
      assert Violates(rows, row);
    }
  }

  /** The first save of a case is answered as created, one of its newest content as unchanged, and any other as
      updated. */
  lemma SaveStatus(rows: seq<Row>, id: Uuid, hash: Hash, author: ClientId)
    requires Dense(rows)
    ensures var reply := SaveInto(rows, id, hash, author).1;
            && reply.Saved?
            && (reply.status == Created <==> forall r | r in rows :: r.id != id)
            && (reply.status == Unchanged <==> Stored(rows, id, MaxVersion(rows, id), hash))
  {
    LatestFacts(rows, id);
    NextVersionFits(rows, id);
    var latest := Latest(rows, id);
    if latest.None? {
      assert !Violates(rows, Row(id, 1, hash, author));
    } else if Stored(rows, id, latest.value.version, hash) {
      var r :| r in rows && r.id == id && r.version == latest.value.version && r.hash == hash;
      VersionNamesRow(rows, r, latest.value);
    }
  }

  /** Saving A, then B, then A answers B's row. */
  lemma OlderContentAnswersNewest(id: Uuid, a: Hash, b: Hash)
    requires a != b
    ensures var (r1, p1) := SaveInto([], id, a, 0);
            var (r2, p2) := SaveInto(r1, id, b, 0);
            var (r3, p3) := SaveInto(r2, id, a, 0);
            && p1 == Saved(Created, 1, a) && p2 == Saved(Updated, 2, b)
            && p3 == Saved(Updated, 2, b) && r3 == r2
  {
    var none: seq<Row> := [];
    var ra, rb := Row(id, 1, a, 0), Row(id, 2, b, 0);
    assert none + [ra] == [ra];
    Snoc(none, ra);
    Snoc([ra], rb);
    assert SaveInto(none, id, a, 0) == ([ra], Saved(Created, 1, a));
    assert Latest([ra], id) == Some(ra);
    assert SaveInto([ra], id, b, 0) == ([ra] + [rb], Saved(Updated, 2, b));
    assert Latest([ra] + [rb], id) == Some(rb);
    assert ra in [ra] + [rb];
    assert Violates([ra] + [rb], Row(id, 3, a, 0));
  }

  // ----- many callers -----

  datatype Progress =
    | Waiting | Read(latest: Option<Row>) | Refused | Answered(reply: Reply) | Committed(reply: Reply)
    | Failed | Aborted

  datatype Client = Client(id: Uuid, hash: Hash, at: Progress, pending: Option<Row>)

  datatype State = State(rows: seq<Row>, clients: map<ClientId, Client>)

  function With(s: State, c: ClientId, k: Client): State { s.(clients := s.clients[c := k]) }

  predicate Arrive(s: State, c: ClientId, id: Uuid, hash: Hash, s': State) {
    c !in s.clients && s' == With(s, c, Client(id, hash, Waiting, None))
  }

  predicate ReadLatest(s: State, c: ClientId, s': State) {
    && c in s.clients && s.clients[c].at == Waiting
    && var k, latest := s.clients[c], Latest(s.rows, s.clients[c].id);
       s' == With(s, c, k.(at :=
         if latest.Some? && latest.value.hash == k.hash then Answered(ReplyFrom(latest.value, k.hash))
         else Read(latest)))
  }

  function NewRow(s: State, c: ClientId): Row
    requires c in s.clients && s.clients[c].at.Read?
  {
    Row(s.clients[c].id, NextVersion(s.clients[c].at.latest), s.clients[c].hash, c)
  }

  /** An insert waits while another open transaction holds a clashing row. */
  predicate MayInsert(s: State, c: ClientId, row: Row) {
    forall d | d in s.clients && d != c && s.clients[d].pending.Some? :: !Clash(s.clients[d].pending.value, row)
  }

  predicate Insert(s: State, c: ClientId, s': State) {
    && c in s.clients && s.clients[c].at.Read?
    && var k, row := s.clients[c], NewRow(s, c);
       if Violates(s.rows, row) then
         s' == With(s, c, k.(at := Refused))
       else
         && MayInsert(s, c, row)
         && s' == With(s, c, k.(at := Answered(Saved(InsertedStatus(k.at.latest), row.version, k.hash)),
                                pending := Some(row)))
  }

  predicate Reread(s: State, c: ClientId, s': State) {
    && c in s.clients && s.clients[c].at == Refused
    && var k, latest := s.clients[c], Latest(s.rows, s.clients[c].id);
       s' == With(s, c, k.(at := if latest.Some? then Answered(ReplyFrom(latest.value, k.hash)) else Failed))
  }

  predicate Commit(s: State, c: ClientId, s': State) {
    && c in s.clients && s.clients[c].at.Answered?
    && var k := s.clients[c];
       s' == With(s, c, k.(at := Committed(k.at.reply), pending := None)).(rows :=
         if k.pending.Some? then s.rows + [k.pending.value] else s.rows)
  }

  predicate Abort(s: State, c: ClientId, s': State) {
    && c in s.clients && !s.clients[c].at.Committed? && !s.clients[c].at.Failed?
    && s' == With(s, c, s.clients[c].(at := Aborted, pending := None))
  }

  ghost predicate StepOf(s: State, c: ClientId, s': State) {
    || (exists id, hash :: Arrive(s, c, id, hash, s')) || ReadLatest(s, c, s') || Insert(s, c, s')
    || Reread(s, c, s') || Commit(s, c, s') || Abort(s, c, s')
  }

  ghost predicate Init(s: State) { s == State([], map[]) }

  // ----- the invariant -----

  ghost predicate IsNext(rows: seq<Row>, row: Row) {
    row.version == MaxVersion(rows, row.id) + 1 && !HoldsHash(rows, row.id, row.hash)
  }

  ghost predicate Known(rows: seq<Row>, id: Uuid) { exists r :: r in rows && r.id == id }

  ghost predicate ReplyStored(rows: seq<Row>, k: Client, reply: Reply) {
    reply.Saved? && Stored(rows, k.id, reply.version, reply.hash)
  }

  ghost predicate ClientOk(rows: seq<Row>, c: ClientId, k: Client) {
    && (k.pending.Some? ==> k.at.Answered? && k.pending.value.author == c && k.pending.value.id == k.id)
    && match k.at
       case Read(Some(latest)) => latest in rows && latest.id == k.id
       case Refused => Known(rows, k.id)
       case Answered(reply) =>
         if k.pending.Some? then
           IsNext(rows, k.pending.value) && reply.Saved? && reply.version == k.pending.value.version
           && reply.hash == k.pending.value.hash
         else ReplyStored(rows, k, reply)
       case Committed(reply) => ReplyStored(rows, k, reply)
       case Failed => false
       case _ => true
  }

  /** Two open inserts are for different ids. */
  ghost predicate PendingApart(s: State) {
    forall c, d | c in s.clients && d in s.clients && c != d
                  && s.clients[c].pending.Some? && s.clients[d].pending.Some? ::
      s.clients[c].pending.value.id != s.clients[d].pending.value.id
  }

  ghost predicate Inv(s: State) {
    && Dense(s.rows) && PendingApart(s)
    && forall c | c in s.clients :: ClientOk(s.rows, c, s.clients[c])
  }

  lemma QuietKeeps(s: State, c: ClientId, k: Client)
    requires Inv(s) && ClientOk(s.rows, c, k) && k.pending.None?
    ensures Inv(With(s, c, k))
  {
  }

  lemma ReadKeeps(s: State, c: ClientId, s': State)
    requires Inv(s) && ReadLatest(s, c, s')
    ensures Inv(s')
  {
    LatestFacts(s.rows, s.clients[c].id);
    assert ClientOk(s.rows, c, s.clients[c]);
    QuietKeeps(s, c, s'.clients[c]);
  }

  lemma RereadKeeps(s: State, c: ClientId, s': State)
    requires Inv(s) && Reread(s, c, s')
    ensures Inv(s')
  {
    LatestFacts(s.rows, s.clients[c].id);
    assert ClientOk(s.rows, c, s.clients[c]);
    QuietKeeps(s, c, s'.clients[c]);
  }

  lemma AbortKeeps(s: State, c: ClientId, s': State)
    requires Inv(s) && Abort(s, c, s')
    ensures Inv(s')
  {
    QuietKeeps(s, c, s'.clients[c]);
  }

  /** Uniqueness alone: an insert that is accepted carries the next version. */
  lemma AcceptedInsertIsNext(rows: seq<Row>, row: Row, latest: Option<Row>)
    requires Dense(rows) && row.version == NextVersion(latest) && !Violates(rows, row)
    requires latest.Some? ==> latest.value in rows && latest.value.id == row.id
    ensures IsNext(rows, row)
  {
    if latest.Some? {
      VersionAtMostMax(rows, latest.value);
    }
    AcceptedIsNext(rows, row, row.version - 1);
  }

  lemma InsertKeeps(s: State, c: ClientId, s': State)
    requires Inv(s) && Insert(s, c, s')
    ensures Inv(s')
  {
    var k, row := s.clients[c], NewRow(s, c);
    assert ClientOk(s.rows, c, k);
    if Violates(s.rows, row) {
      QuietKeeps(s, c, s'.clients[c]);
    } else {
      AcceptedInsertIsNext(s.rows, row, k.at.latest);
      assert PendingApart(s') by {
        forall d | d in s.clients && d != c && s.clients[d].pending.Some?
          ensures s.clients[d].pending.value.id != row.id
        {
          assert ClientOk(s.rows, d, s.clients[d]);
        }
      }
    }
  }

  lemma AppendHarmless(rows: seq<Row>, row: Row, d: ClientId, k: Client)
    requires ClientOk(rows, d, k) && (k.pending.Some? ==> k.id != row.id)
    ensures ClientOk(rows + [row], d, k)
  {
    Snoc(rows, row);
    if k.pending.Some? {
      MaxAppend(rows, row, k.id);
      HoldsHashSnoc(rows, row, k.id, k.pending.value.hash);
    }
    forall v, h | Stored(rows, k.id, v, h) ensures Stored(rows + [row], k.id, v, h) {
      StoredAppend(rows, [row], k.id, v, h);
    }
    if Known(rows, k.id) {
      var r :| r in rows && r.id == k.id;
      assert r in rows + [row];
    }
  }

  lemma CommitKeeps(s: State, c: ClientId, s': State)
    requires Inv(s) && Commit(s, c, s')
    ensures Inv(s')
  {
    var k := s.clients[c];
    assert ClientOk(s.rows, c, k);
    if k.pending.None? {
      QuietKeeps(s, c, s'.clients[c]);
    } else {
      var row := k.pending.value;
      DenseAppend(s.rows, row);
      assert row in s.rows + [row];
      forall d | d in s'.clients ensures ClientOk(s'.rows, d, s'.clients[d]) {
        if d != c {
          AppendHarmless(s.rows, row, d, s.clients[d]);
        }
      }
    }
  }

  lemma StepKeepsInv(s: State, c: ClientId, s': State)
    requires Inv(s) && StepOf(s, c, s')
    ensures Inv(s')
  {
    if ReadLatest(s, c, s') {
      ReadKeeps(s, c, s');
    } else if Insert(s, c, s') {
      InsertKeeps(s, c, s');
    } else if Reread(s, c, s') {
      RereadKeeps(s, c, s');
    } else if Commit(s, c, s') {
      CommitKeeps(s, c, s');
    } else if Abort(s, c, s') {
      AbortKeeps(s, c, s');
    } else {
      var id, hash :| Arrive(s, c, id, hash, s');
      QuietKeeps(s, c, s'.clients[c]);
    }
  }

  lemma RunKeepsInv(run: seq<State>, i: nat)
    requires IsRun(StepOf, run) && Init(run[0]) && i < |run|
    ensures Inv(run[i])
  {
    forall s: State, c: ClientId, t: State | Inv(s) && StepOf(s, c, t) ensures Inv(t) {
      StepKeepsInv(s, c, t);
    }
    KeptByRun(StepOf, Inv, run, 0, i);
  }

  /** Over every interleaving, without any lock: versions are exactly 1..n, a version or a content names
      one row, every committed answer names a stored row, and no caller is told that the case is missing. */
  lemma UniquenessAlone(run: seq<State>, i: nat, id: Uuid)
    requires IsRun(StepOf, run) && Init(run[0]) && i < |run|
    ensures forall v: nat :: HoldsVersion(run[i].rows, id, v) <==> 1 <= v <= MaxVersion(run[i].rows, id)
    ensures forall a, b | a in run[i].rows && b in run[i].rows && a.id == id && b.id == id ::
              (a.version == b.version || a.hash == b.hash) ==> a == b
    ensures forall c | c in run[i].clients && run[i].clients[c].at.Committed? ::
              ReplyStored(run[i].rows, run[i].clients[c], run[i].clients[c].at.reply)
    ensures forall c | c in run[i].clients :: !run[i].clients[c].at.Failed?
  {
    RunKeepsInv(run, i);
    var rows := run[i].rows;
    forall v: nat ensures HoldsVersion(rows, id, v) <==> 1 <= v <= MaxVersion(rows, id) {
      VersionsAreOneToN(rows, id, v);
    }
    forall a, b | a in rows && b in rows && a.id == id && b.id == id
      ensures (a.version == b.version || a.hash == b.hash) ==> a == b
    {
      VersionNamesRow(rows, a, b);
    }
    forall c | c in run[i].clients
      ensures !run[i].clients[c].at.Failed?
      ensures run[i].clients[c].at.Committed? ==>
                ReplyStored(rows, run[i].clients[c], run[i].clients[c].at.reply)
    {
      assert ClientOk(rows, c, run[i].clients[c]);
    }
  }

  ghost predicate Extends(s: State, s': State) {
    && s.rows <= s'.rows
    && forall c | c in s.clients && s.clients[c].at.Committed? ::
         c in s'.clients && s'.clients[c] == s.clients[c]
  }

  /** History is never rewritten. */
  lemma RunOnlyAppends(run: seq<State>, i: nat, j: nat)
    requires IsRun(StepOf, run) && i <= j < |run|
    ensures Extends(run[i], run[j])
  {
    var keeps := (t: State) => Extends(run[i], t);
    forall s: State, c: ClientId, t: State | keeps(s) && StepOf(s, c, t) ensures keeps(t) {
      assert Extends(s, t);
    }
    KeptByRun(StepOf, keeps, run, i, j);
  }

  // ----- when a caller's own content is kept -----

  /** A next version is free exactly while what was read is still the newest row. */
  lemma {:induction false} FreeIffStillNewest(rows: seq<Row>, id: Uuid, latest: Option<Row>)
    requires Dense(rows) && (latest.Some? ==> latest.value in rows && latest.value.id == id)
    ensures !HoldsVersion(rows, id, NextVersion(latest)) <==> Latest(rows, id) == latest
  {
    var newest := Latest(rows, id);
    LatestFacts(rows, id);
    VersionsAreOneToN(rows, id, NextVersion(latest));
    if latest.Some? {
      VersionAtMostMax(rows, latest.value);
      if newest.Some? {
        VersionNamesRow(rows, latest.value, newest.value);
      }
    } else if newest.Some? {
      VersionsAreOneToN(rows, id, newest.value.version);
      assert HoldsVersion(rows, id, newest.value.version);
    }
  }

  /** In every run: an insert is accepted exactly when the row that was read is still the newest of the case
      and the content is not stored yet. */
  lemma InsertAcceptedIff(run: seq<State>, i: nat, c: ClientId)
    requires IsRun(StepOf, run) && Init(run[0]) && i + 1 < |run| && Insert(run[i], c, run[i + 1])
    ensures var k := run[i].clients[c];
            run[i + 1].clients[c].pending.Some? <==>
              Latest(run[i].rows, k.id) == k.at.latest && !HoldsHash(run[i].rows, k.id, k.hash)
  {
    RunKeepsInv(run, i);
    var s, k := run[i], run[i].clients[c];
    assert ClientOk(s.rows, c, k);
    FreeIffStillNewest(s.rows, k.id, k.at.latest);
  }

  /** The step by which a client gets its answer. */
  ghost predicate GetsAnswer(s: State, c: ClientId, s': State) {
    && (ReadLatest(s, c, s') || Insert(s, c, s') || Reread(s, c, s'))
    && s'.clients[c].at.Answered?
  }

  /** In every run: the answer names the content that was sent exactly when it was inserted by that step, or is
      the newest row of the case at that step; otherwise it names the newest row, as updated. */
  lemma OwnContentIff(run: seq<State>, i: nat, c: ClientId)
    requires IsRun(StepOf, run) && Init(run[0]) && i + 1 < |run| && GetsAnswer(run[i], c, run[i + 1])
    ensures var k, k' := run[i].clients[c], run[i + 1].clients[c];
            var newest := Latest(run[i].rows, k.id);
            && k'.at.reply.Saved?
            && (k'.at.reply.hash == k.hash <==> k'.pending.Some? || (newest.Some? && newest.value.hash == k.hash))
            && (k'.pending.None? ==> newest.Some? && k'.at.reply == ReplyFrom(newest.value, k.hash))
  {
    RunKeepsInv(run, i);
    RunKeepsInv(run, i + 1);
    assert ClientOk(run[i].rows, c, run[i].clients[c]);
    LatestFacts(run[i].rows, run[i].clients[c].id);
    if Insert(run[i], c, run[i + 1]) {
      InsertAcceptedIff(run, i, c);
    }
  }

  // ----- a save that is lost -----

  /** Two callers read the empty case together; the second insert is refused. */
  lemma BothReadEmpty(id: Uuid, a: Hash, b: Hash) returns (s: State)
    ensures RunsTo(StepOf, State([], map[]), s)
    ensures s == State([], map[1 := Client(id, a, Read(None), None), 2 := Client(id, b, Read(None), None)])
  {
    var s0 := State([], map[]);
    var w1, w2 := Client(id, a, Waiting, None), Client(id, b, Waiting, None);
    var r1, r2 := w1.(at := Read(None)), w2.(at := Read(None));
    var s1, s2, s3 := With(s0, 1, w1), With(With(s0, 1, w1), 2, w2), With(With(s0, 1, r1), 2, w2);
    s := With(With(s0, 1, r1), 2, r2);
    RunsToSelf(StepOf, s0);
    assert Arrive(s0, 1, id, a, s1);
    RunsToStep(StepOf, s0, s0, s1, 1);
    assert Arrive(s1, 2, id, b, s2);
    RunsToStep(StepOf, s0, s1, s2, 2);
    assert ReadLatest(s2, 1, s3);
    RunsToStep(StepOf, s0, s2, s3, 1);
    assert ReadLatest(s3, 2, s);
    RunsToStep(StepOf, s0, s3, s, 2);
  }

  lemma FirstInserts(id: Uuid, a: Hash, b: Hash) returns (s: State)
    ensures RunsTo(StepOf, State([], map[]), s)
    ensures s == State([Row(id, 1, a, 1)], map[1 := Client(id, a, Committed(Saved(Created, 1, a)), None),
                                               2 := Client(id, b, Read(None), None)])
  {
    var s0 := State([], map[]);
    var t := BothReadEmpty(id, a, b);
    var row := Row(id, 1, a, 1);
    var answered := Client(id, a, Answered(Saved(Created, 1, a)), Some(row));
    var t1 := With(t, 1, answered);
    assert Insert(t, 1, t1);
    RunsToStep(StepOf, s0, t, t1, 1);
    s := With(t1, 1, Client(id, a, Committed(Saved(Created, 1, a)), None)).(rows := [row]);
    assert t1.rows + [row] == [row];
    assert Commit(t1, 1, s);
    RunsToStep(StepOf, s0, t1, s, 1);
  }

  /** Without a lock a content can be refused for its version alone: the caller is answered another
      caller's row, and what it sent is not stored. */
  lemma SaveCanBeLost(id: Uuid, a: Hash, b: Hash) returns (s: State)
    requires a != b
    ensures RunsTo(StepOf, State([], map[]), s)
    ensures 2 in s.clients && s.clients[2] == Client(id, b, Committed(Saved(Updated, 1, a)), None)
    ensures !HoldsHash(s.rows, id, b)
  {
    var s0 := State([], map[]);
    var t := FirstInserts(id, a, b);
    var row, k := Row(id, 1, a, 1), Client(id, b, Read(None), None);
    var t1, t2 := With(t, 2, k.(at := Refused)), With(t, 2, k.(at := Answered(Saved(Updated, 1, a))));
    assert row in t.rows;
    assert Insert(t, 2, t1);
    RunsToStep(StepOf, s0, t, t1, 2);
    var none: seq<Row> := [];
    Snoc(none, row);
    assert t.rows == none + [row];
    assert Latest(t1.rows, id) == Some(row);
    assert Reread(t1, 2, t2);
    RunsToStep(StepOf, s0, t1, t2, 2);
    s := With(t2, 2, k.(at := Committed(Saved(Updated, 1, a))));
    assert Commit(t2, 2, s);
    RunsToStep(StepOf, s0, t2, s, 2);
  }
}
