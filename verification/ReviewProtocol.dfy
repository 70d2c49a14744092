/** Proposing and reviewing by many transactions at once, one await at a time.

    A reviewer locks the proposal's row, when there is one.  What a transaction wrote becomes visible
    to the others when it commits, which also releases its row locks. */
module ReviewProtocol {
  import opened Ordering
  import opened Review
  import opened Runs

  datatype Task = ProposeTask(p: Proposal) | ReviewTask(id: ProposalId, review: Review)

  datatype Progress =
    | Waiting
    | Absent                     // proposer: no equal fingerprint found
    | Clashed                    // proposer: the insert was refused
    | Ready                      // reviewer: past the lock
    | Settled(seen: Proposal)    // reviewer: the proposal was already reviewed
    | Open(seen: Proposal)       // reviewer: the proposal awaits a review
    | Recorded(seen: Proposal)   // reviewer: the review is inserted
    | Refused                    // reviewer: the review was refused
    | Answered(answer: Answer) | Committed(answer: Answer) | Aborted

  /** `proposal` and `review` are the uncommitted writes. */
  datatype Client = Client(task: Task, at: Progress, proposal: Option<Proposal>, review: Option<Review>)

  datatype State = State(db: Db, locks: map<ProposalId, ClientId>, clients: map<ClientId, Client>)

  function Target(k: Client): ProposalId {
    match k.task
    case ProposeTask(p) => IdOf(p)
    case ReviewTask(id, _) => id
  }

  predicate Finished(p: Progress) { p.Committed? || p.Aborted? }

  function With(s: State, c: ClientId, k: Client): State { s.(clients := s.clients[c := k]) }

  function WithoutLocks(s: State, c: ClientId): map<ProposalId, ClientId> {
    map id | id in s.locks && s.locks[id] != c :: s.locks[id]
  }

  predicate Holds(s: State, c: ClientId, id: ProposalId) { id in s.locks && s.locks[id] == c }

  // ----- steps -----

  /** Requests carry a proposal as grouping makes it, or a review that passed the checks on its input. */
  predicate Legal(t: Task) {
    match t
    case ProposeTask(p) => p == Fresh(p.fingerprint, p.predictedKind, p.content)
    case ReviewTask(_, r) => InputError(r).None?
  }

  predicate Arrive(s: State, c: ClientId, t: Task, s': State) {
    c !in s.clients && Legal(t) && s' == With(s, c, Client(t, Waiting, None, None))
  }

  function Stored(s: State, id: ProposalId): Answer {
    if id in s.db.proposals then Ok(s.db.proposals[id]) else Err(NotFound)
  }

  predicate FindEqual(s: State, c: ClientId, s': State) {
    && c in s.clients && s.clients[c].at == Waiting && s.clients[c].task.ProposeTask?
    && var k := s.clients[c];
       s' == With(s, c, k.(at := if Target(k) in s.db.proposals then Answered(Stored(s, Target(k))) else Absent))
  }

  /** An insert waits while another open transaction inserts a row with the same key. */
  predicate MayInsertProposal(s: State, c: ClientId) requires c in s.clients {
    forall d | d in s.clients && d != c && s.clients[d].task.ProposeTask? && s.clients[d].proposal.Some? ::
      Target(s.clients[d]) != Target(s.clients[c])
  }

  predicate InsertProposal(s: State, c: ClientId, s': State) {
    && c in s.clients && s.clients[c].at == Absent && s.clients[c].task.ProposeTask?
    && var k := s.clients[c];
       if Target(k) in s.db.proposals then s' == With(s, c, k.(at := Clashed))
       else MayInsertProposal(s, c)
            && s' == With(s, c, k.(at := Answered(Ok(k.task.p)), proposal := Some(k.task.p)))
  }

  predicate FindAfterClash(s: State, c: ClientId, s': State) {
    && c in s.clients && s.clients[c].at == Clashed
    && s' == With(s, c, s.clients[c].(at := Answered(Stored(s, Target(s.clients[c])))))
  }

  /** Locking a row that does not exist locks nothing. */
  predicate LockRow(s: State, c: ClientId, s': State) {
    && c in s.clients && s.clients[c].at == Waiting && s.clients[c].task.ReviewTask?
    && var id := Target(s.clients[c]);
       && (id in s.db.proposals ==> id !in s.locks)
       && s' == With(s, c, s.clients[c].(at := Ready)).(locks :=
                  if id in s.db.proposals then s.locks[id := c] else s.locks)
  }

  predicate LoadRow(s: State, c: ClientId, s': State) {
    && c in s.clients && s.clients[c].at == Ready
    && var k := s.clients[c];
       s' == With(s, c, k.(at :=
         if Target(k) !in s.db.proposals then Answered(Err(NotFound))
         else
           var p := s.db.proposals[Target(k)];
           if p.status == Proposed then Open(p) else Settled(p)))
  }

  predicate ComparePrior(s: State, c: ClientId, s': State) {
    && c in s.clients && s.clients[c].at.Settled? && s.clients[c].task.ReviewTask?
    && var k := s.clients[c];
       var same := Target(k) in s.db.reviews && s.db.reviews[Target(k)] == k.task.review;
       s' == With(s, c, k.(at := Answered(if same then Ok(k.at.seen) else Err(InvalidTransition(k.at.seen.status)))))
  }

  /** An insert waits while another open transaction inserts a review of the same proposal. */
  predicate MayInsertReview(s: State, c: ClientId) requires c in s.clients {
    forall d | d in s.clients && d != c && s.clients[d].review.Some? :: Target(s.clients[d]) != Target(s.clients[c])
  }

  predicate InsertReview(s: State, c: ClientId, s': State) {
    && c in s.clients && s.clients[c].at.Open? && s.clients[c].task.ReviewTask?
    && var k := s.clients[c];
       if Target(k) in s.db.reviews then s' == With(s, c, k.(at := Refused))
       else MayInsertReview(s, c)
            && s' == With(s, c, k.(at := Recorded(k.at.seen), review := Some(k.task.review)))
  }

  predicate ReloadAfterRefusal(s: State, c: ClientId, s': State) {
    && c in s.clients && s.clients[c].at == Refused
    && var k := s.clients[c];
       s' == With(s, c, k.(at := if Target(k) in s.db.reviews then Answered(Stored(s, Target(k)))
                                 else Answered(Err(InvalidTransition(Proposed)))))
  }

  /** Updating a row takes its lock. */
  predicate UpdateRow(s: State, c: ClientId, s': State) {
    && c in s.clients && s.clients[c].at.Recorded? && s.clients[c].task.ReviewTask?
    && var k := s.clients[c];
       && (Target(k) in s.locks ==> s.locks[Target(k)] == c)
       && var updated := Settle(k.at.seen, k.task.review);
          s' == With(s, c, k.(at := Answered(Ok(updated)), proposal := Some(updated)))
                .(locks := s.locks[Target(k) := c])
  }

  function Published(s: State, k: Client): Db {
    Db(if k.proposal.Some? then s.db.proposals[Target(k) := k.proposal.value] else s.db.proposals,
       if k.review.Some? then s.db.reviews[Target(k) := k.review.value] else s.db.reviews)
  }

  predicate Commit(s: State, c: ClientId, s': State) {
    && c in s.clients && s.clients[c].at.Answered?
    && var k := s.clients[c];
       s' == State(Published(s, k), WithoutLocks(s, c),
                   s.clients[c := k.(at := Committed(k.at.answer), proposal := None, review := None)])
  }

  predicate Abort(s: State, c: ClientId, s': State) {
    && c in s.clients && !Finished(s.clients[c].at)
    && s' == With(s, c, s.clients[c].(at := Aborted, proposal := None, review := None)).(locks := WithoutLocks(s, c))
  }

  ghost predicate ProposerStep(s: State, c: ClientId, s': State) {
    FindEqual(s, c, s') || InsertProposal(s, c, s') || FindAfterClash(s, c, s')
  }

  ghost predicate ReviewerStep(s: State, c: ClientId, s': State) {
    || LockRow(s, c, s') || LoadRow(s, c, s') || ComparePrior(s, c, s') || InsertReview(s, c, s')
    || ReloadAfterRefusal(s, c, s') || UpdateRow(s, c, s')
  }

  ghost predicate StepOf(s: State, c: ClientId, s': State) {
    || (exists t :: Arrive(s, c, t, s')) || ProposerStep(s, c, s') || ReviewerStep(s, c, s')
    || Commit(s, c, s') || Abort(s, c, s')
  }

  ghost predicate Init(s: State) { s == State(Db(map[], map[]), map[], map[]) }

  // ----- the invariant -----

  ghost predicate IsFresh(p: Proposal) { p == Fresh(p.fingerprint, p.predictedKind, p.content) }

  /** What was loaded while the proposal was open is still its content. */
  ghost predicate SeenOpen(db: Db, id: ProposalId, seen: Proposal) {
    id in db.proposals && IsFresh(seen) && IdOf(seen) == id && (id !in db.reviews ==> db.proposals[id] == seen)
  }

  ghost predicate Final(db: Db, id: ProposalId, p: Proposal) {
    id in db.proposals && db.proposals[id] == p && id in db.reviews
  }

  ghost predicate ReviewerAnswer(db: Db, id: ProposalId, answer: Answer) {
    answer.Ok? ==> Final(db, id, answer.proposal)
  }

  ghost predicate ProposerAnswer(db: Db, id: ProposalId, answer: Answer) {
    answer.Ok? && IdOf(answer.proposal) == id && id in db.proposals
  }

  ghost predicate ProposerOk(db: Db, k: Client)
    requires k.task.ProposeTask?
  {
    && IsFresh(k.task.p) && k.review.None?
    && (k.proposal.Some? ==> k.at == Answered(Ok(k.task.p)) && k.proposal.value == k.task.p
                             && Target(k) !in db.proposals)
    && match k.at
       case Waiting => true
       case Absent => true
       case Aborted => true
       case Clashed => Target(k) in db.proposals
       case Answered(a) => k.proposal.Some? || ProposerAnswer(db, Target(k), a)
       case Committed(a) => ProposerAnswer(db, Target(k), a)
       case _ => false
  }

  ghost predicate ReviewerOk(s: State, c: ClientId, k: Client)
    requires k.task.ReviewTask?
  {
    && InputError(k.task.review).None?
    && (k.review.Some? <==> k.at.Recorded? || (k.at.Answered? && k.proposal.Some?))
    && (k.review.Some? ==> k.review.value == k.task.review && Target(k) !in s.db.reviews)
    && (k.proposal.Some? ==> k.at.Answered? && Holds(s, c, Target(k)))
    && (Finished(k.at) || k.at == Waiting ==> !Holds(s, c, Target(k)))
    && match k.at
       case Waiting => true
       case Ready => Holds(s, c, Target(k)) ==> Target(k) in s.db.proposals
       case Aborted => true
       case Settled(p) => Final(s.db, Target(k), p)
       case Open(p) => SeenOpen(s.db, Target(k), p) && (Holds(s, c, Target(k)) ==> Target(k) !in s.db.reviews)
       case Recorded(p) => SeenOpen(s.db, Target(k), p)
       case Refused => Target(k) in s.db.reviews && !Holds(s, c, Target(k))
       case Answered(a) =>
         if k.proposal.Some? then
           && Target(k) in s.db.proposals
           && k.proposal.value == Settle(s.db.proposals[Target(k)], k.task.review)
           && a == Ok(k.proposal.value)
         else ReviewerAnswer(s.db, Target(k), a)
       case Committed(a) => ReviewerAnswer(s.db, Target(k), a)
       case _ => false
  }

  ghost predicate ClientOk(s: State, c: ClientId, k: Client) {
    if k.task.ProposeTask? then ProposerOk(s.db, k) else ReviewerOk(s, c, k)
  }

  /** Open inserts of two clients are for different keys. */
  ghost predicate Apart(k: Client, l: Client) {
    && (k.review.Some? && l.review.Some? ==> Target(k) != Target(l))
    && (k.task.ProposeTask? && l.task.ProposeTask? && k.proposal.Some? && l.proposal.Some? ==> Target(k) != Target(l))
  }

  ghost predicate WritesApart(s: State) {
    forall c, d | c in s.clients && d in s.clients && c != d :: Apart(s.clients[c], s.clients[d])
  }

  /** A row lock is held by a reviewer of that row. */
  ghost predicate LocksOk(s: State) {
    forall id | id in s.locks ::
      && s.locks[id] in s.clients && s.clients[s.locks[id]].task.ReviewTask?
      && Target(s.clients[s.locks[id]]) == id && id in s.db.proposals
  }

  ghost predicate ClientsOk(s: State) { forall c | c in s.clients :: ClientOk(s, c, s.clients[c]) }

  ghost predicate Inv(s: State) { Consistent(s.db) && WritesApart(s) && LocksOk(s) && ClientsOk(s) }

  /** The lock table changes only in entries of `c`, whose new entry can only be its target. */
  ghost predicate LocksMove(s: State, c: ClientId, k: Client, locks: map<ProposalId, ClientId>) {
    && (forall id | id in s.locks && s.locks[id] != c :: id in locks && locks[id] == s.locks[id])
    && (forall id | id in locks && locks[id] != c :: id in s.locks && s.locks[id] == locks[id])
    && (forall id | id in locks && locks[id] == c ::
          k.task.ReviewTask? && id == Target(k) && id in s.db.proposals)
  }

  /** What `c` newly writes clashes with no other open write. */
  ghost predicate WritesFree(s: State, c: ClientId, k: Client) {
    forall d | d in s.clients && d != c :: Apart(k, s.clients[d])
  }

  lemma OtherUnmoved(s: State, s': State, c: ClientId, d: ClientId, k: Client)
    requires ClientOk(s, d, k) && d != c && s'.db == s.db
    requires forall id | id in s.locks && s.locks[id] != c :: id in s'.locks && s'.locks[id] == s.locks[id]
    requires forall id | id in s'.locks && s'.locks[id] != c :: id in s.locks && s.locks[id] == s'.locks[id]
    ensures ClientOk(s', d, k)
  {
    assert Holds(s', d, Target(k)) <==> Holds(s, d, Target(k));
  }

  lemma MoveKeepsClients(s: State, c: ClientId, k: Client, locks: map<ProposalId, ClientId>)
    requires ClientsOk(s) && LocksMove(s, c, k, locks)
    requires ClientOk(With(s, c, k).(locks := locks), c, k)
    ensures ClientsOk(With(s, c, k).(locks := locks))
  {
    var s' := With(s, c, k).(locks := locks);
    forall d | d in s'.clients ensures ClientOk(s', d, s'.clients[d]) {
      if d != c {
        OtherUnmoved(s, s', c, d, s.clients[d]);
      }
    }
  }

  lemma MoveKeepsApart(s: State, c: ClientId, k: Client, locks: map<ProposalId, ClientId>)
    requires WritesApart(s) && WritesFree(s, c, k)
    ensures WritesApart(With(s, c, k).(locks := locks))
  {
  }

  lemma MoveKeepsLocks(s: State, c: ClientId, k: Client, locks: map<ProposalId, ClientId>)
    requires LocksOk(s) && LocksMove(s, c, k, locks)
    ensures LocksOk(With(s, c, k).(locks := locks))
  {
  }

  /** One client's move that commits nothing. */
  lemma MoveKeeps(s: State, c: ClientId, k: Client, locks: map<ProposalId, ClientId>)
    requires Inv(s) && LocksMove(s, c, k, locks) && WritesFree(s, c, k)
    requires ClientOk(With(s, c, k).(locks := locks), c, k)
    ensures Inv(With(s, c, k).(locks := locks))
  {
    MoveKeepsClients(s, c, k, locks);
    MoveKeepsApart(s, c, k, locks);
    MoveKeepsLocks(s, c, k, locks);
  }

  /** A move of one client that writes nothing and takes or drops no lock. */
  lemma QuietKeeps(s: State, c: ClientId, k: Client)
    requires Inv(s) && ClientOk(s, c, k) && k.proposal.None? && k.review.None?
    requires c in s.clients ==> k.task == s.clients[c].task
    ensures Inv(With(s, c, k))
  {
    assert Holds(With(s, c, k), c, Target(k)) <==> Holds(s, c, Target(k));
    MoveKeeps(s, c, k, s.locks);
  }

  lemma ArriveKeeps(s: State, c: ClientId, t: Task, s': State)
    requires Inv(s) && Arrive(s, c, t, s')
    ensures Inv(s')
  {
    QuietKeeps(s, c, s'.clients[c]);
  }

  lemma FindEqualKeeps(s: State, c: ClientId, s': State)
    requires Inv(s) && FindEqual(s, c, s')
    ensures Inv(s')
  {
    assert ClientOk(s, c, s.clients[c]);
    QuietKeeps(s, c, s'.clients[c]);
  }

  lemma InsertProposalKeeps(s: State, c: ClientId, s': State)
    requires Inv(s) && InsertProposal(s, c, s')
    ensures Inv(s')
  {
    var k := s.clients[c];
    assert ClientOk(s, c, k);
    if Target(k) in s.db.proposals {
      QuietKeeps(s, c, s'.clients[c]);
    } else {
      MoveKeeps(s, c, s'.clients[c], s.locks);
    }
  }

  lemma FindAfterClashKeeps(s: State, c: ClientId, s': State)
    requires Inv(s) && FindAfterClash(s, c, s')
    ensures Inv(s')
  {
    assert ClientOk(s, c, s.clients[c]);
    QuietKeeps(s, c, s'.clients[c]);
  }

  lemma LockRowKeeps(s: State, c: ClientId, s': State)
    requires Inv(s) && LockRow(s, c, s')
    ensures Inv(s')
  {
    assert ClientOk(s, c, s.clients[c]);
    MoveKeeps(s, c, s'.clients[c], s'.locks);
  }

  lemma LoadRowKeeps(s: State, c: ClientId, s': State)
    requires Inv(s) && LoadRow(s, c, s')
    ensures Inv(s')
  {
    var k := s.clients[c];
    assert ClientOk(s, c, k);
    if Target(k) in s.db.proposals {
      assert Agrees(s.db.proposals[Target(k)], s.db.reviews);
    }
    QuietKeeps(s, c, s'.clients[c]);
  }

  lemma ComparePriorKeeps(s: State, c: ClientId, s': State)
    requires Inv(s) && ComparePrior(s, c, s')
    ensures Inv(s')
  {
    assert ClientOk(s, c, s.clients[c]);
    QuietKeeps(s, c, s'.clients[c]);
  }

  lemma InsertReviewKeeps(s: State, c: ClientId, s': State)
    requires Inv(s) && InsertReview(s, c, s')
    ensures Inv(s')
  {
    var k := s.clients[c];
    assert ClientOk(s, c, k);
    if Target(k) in s.db.reviews {
      QuietKeeps(s, c, s'.clients[c]);
    } else {
      MoveKeeps(s, c, s'.clients[c], s.locks);
    }
  }

  lemma ReloadKeeps(s: State, c: ClientId, s': State)
    requires Inv(s) && ReloadAfterRefusal(s, c, s')
    ensures Inv(s')
  {
    assert ClientOk(s, c, s.clients[c]);
    QuietKeeps(s, c, s'.clients[c]);
  }

  lemma UpdateRowKeeps(s: State, c: ClientId, s': State)
    requires Inv(s) && UpdateRow(s, c, s')
    ensures Inv(s')
  {
    assert ClientOk(s, c, s.clients[c]);
    MoveKeeps(s, c, s'.clients[c], s'.locks);
  }

  lemma AbortKeeps(s: State, c: ClientId, s': State)
    requires Inv(s) && Abort(s, c, s')
    ensures Inv(s')
  {
    assert ClientOk(s, c, s.clients[c]);
    MoveKeeps(s, c, s'.clients[c], s'.locks);
  }

  lemma PublishKeepsDb(s: State, c: ClientId)
    requires Inv(s) && c in s.clients && s.clients[c].at.Answered?
    ensures Consistent(Published(s, s.clients[c]))
  {
    var k := s.clients[c];
    assert ClientOk(s, c, k);
    var db := Published(s, k);
    forall id | id in db.proposals ensures id == IdOf(db.proposals[id]) && Agrees(db.proposals[id], db.reviews) {
      assert id in s.db.proposals ==> id == IdOf(s.db.proposals[id]) && Agrees(s.db.proposals[id], s.db.reviews);
    }
  }

  lemma PublishKeepsProposer(s: State, c: ClientId, s': State, d: ClientId)
    requires Inv(s) && Commit(s, c, s') && d in s.clients && d != c && s.clients[d].task.ProposeTask?
    ensures ClientOk(s', d, s.clients[d])
  {
    assert ClientOk(s, c, s.clients[c]) && ClientOk(s, d, s.clients[d]);
    assert Apart(s.clients[c], s.clients[d]);
  }

  lemma PublishKeepsReviewer(s: State, c: ClientId, s': State, d: ClientId)
    requires Inv(s) && Commit(s, c, s') && d in s.clients && d != c && s.clients[d].task.ReviewTask?
    ensures ClientOk(s', d, s.clients[d])
  {
    assert ClientOk(s, c, s.clients[c]) && ClientOk(s, d, s.clients[d]);
    assert Apart(s.clients[c], s.clients[d]);
    assert Holds(s', d, Target(s.clients[d])) <==> Holds(s, d, Target(s.clients[d]));
    assert Target(s.clients[d]) in s.db.proposals ==>
             Agrees(s.db.proposals[Target(s.clients[d])], s.db.reviews);
  }

  lemma PublishKeepsOther(s: State, c: ClientId, s': State, d: ClientId)
    requires Inv(s) && Commit(s, c, s') && d in s.clients && d != c
    ensures ClientOk(s', d, s.clients[d])
  {
    if s.clients[d].task.ProposeTask? {
      PublishKeepsProposer(s, c, s', d);
    } else {
      PublishKeepsReviewer(s, c, s', d);
    }
  }

  lemma PublishKeepsOwn(s: State, c: ClientId, s': State)
    requires Inv(s) && Commit(s, c, s')
    ensures ClientOk(s', c, s'.clients[c])
  {
    assert ClientOk(s, c, s.clients[c]);
  }

  lemma PublishKeepsLocks(s: State, c: ClientId, s': State)
    requires Inv(s) && Commit(s, c, s')
    ensures LocksOk(s') && WritesApart(s')
  {
  }

  lemma CommitKeeps(s: State, c: ClientId, s': State)
    requires Inv(s) && Commit(s, c, s')
    ensures Inv(s')
  {
    PublishKeepsDb(s, c);
    PublishKeepsOwn(s, c, s');
    PublishKeepsLocks(s, c, s');
    assert ClientsOk(s') by {
      forall d | d in s'.clients ensures ClientOk(s', d, s'.clients[d]) {
        if d != c {
          PublishKeepsOther(s, c, s', d);
        }
      }
    }
  }

  lemma ProposerStepKeeps(s: State, c: ClientId, s': State)
    requires Inv(s) && ProposerStep(s, c, s')
    ensures Inv(s')
  {
    if FindEqual(s, c, s') {
      FindEqualKeeps(s, c, s');
    } else if InsertProposal(s, c, s') {
      InsertProposalKeeps(s, c, s');
    } else {
      FindAfterClashKeeps(s, c, s');
    }
  }

  lemma ReviewerStepKeeps(s: State, c: ClientId, s': State)
    requires Inv(s) && ReviewerStep(s, c, s')
    ensures Inv(s')
  {
    if LockRow(s, c, s') {
      LockRowKeeps(s, c, s');
    } else if LoadRow(s, c, s') {
      LoadRowKeeps(s, c, s');
    } else if ComparePrior(s, c, s') {
      ComparePriorKeeps(s, c, s');
    } else if InsertReview(s, c, s') {
      InsertReviewKeeps(s, c, s');
    } else if ReloadAfterRefusal(s, c, s') {
      ReloadKeeps(s, c, s');
    } else {
      UpdateRowKeeps(s, c, s');
    }
  }

  lemma StepKeepsInv(s: State, c: ClientId, s': State)
    requires Inv(s) && StepOf(s, c, s')
    ensures Inv(s')
  {
    if ProposerStep(s, c, s') {
      ProposerStepKeeps(s, c, s');
    } else if ReviewerStep(s, c, s') {
      ReviewerStepKeeps(s, c, s');
    } else if Commit(s, c, s') {
      CommitKeeps(s, c, s');
    } else if Abort(s, c, s') {
      AbortKeeps(s, c, s');
    } else {
      var t :| Arrive(s, c, t, s');
      ArriveKeeps(s, c, t, s');
    }
  }

  lemma RunKeepsInv(run: seq<State>, i: nat)
    requires IsRun(StepOf, run) && Init(run[0]) && i < |run|
    ensures Inv(run[i])
  {
    forall s: State, c: ClientId, t: State | Inv(s) && StepOf(s, c, t) ensures Inv(t) {
      StepKeepsInv(s, c, t);
    }
    KeptByRun(StepOf, Inv, run, 0, i);
  }
}
