/** What every interleaving of proposing and reviewing guarantees, and the one race that the lock misses. */
module ReviewResults {
  import opened Ordering
  import opened Review
  import opened ReviewProtocol
  import opened Runs

  /** In every state of every run: a proposal has a review exactly when it is not open, and it then shows
      that review; reviews and proposals are stored under their own ids. */
  lemma DatabaseAlwaysAgrees(run: seq<State>, i: nat, id: ProposalId)
    requires IsRun(StepOf, run) && Init(run[0]) && i < |run|
    ensures var db := run[i].db;
            && (id in db.reviews ==> id in db.proposals)
            && (id in db.proposals ==>
                  && IdOf(db.proposals[id]) == id
                  && (db.proposals[id].status == Proposed <==> id !in db.reviews)
                  && (id in db.reviews ==> db.proposals[id] == Settle(db.proposals[id], db.reviews[id])))
  {
    RunKeepsInv(run, i);
    if id in run[i].db.proposals {
      assert Agrees(run[i].db.proposals[id], run[i].db.reviews);
    }
  }

  /** Nothing settled changes and nothing disappears. */
  ghost predicate Preserves(a: Db, b: Db) {
    && a.proposals.Keys <= b.proposals.Keys
    && (forall id | id in a.reviews :: id in b.reviews && b.reviews[id] == a.reviews[id])
    && (forall id | id in a.reviews && id in a.proposals ::
          id in b.proposals && b.proposals[id] == a.proposals[id])
  }

  ghost predicate Later(s: State, t: State) {
    && Preserves(s.db, t.db)
    && forall c | c in s.clients && s.clients[c].at.Committed? :: c in t.clients && t.clients[c] == s.clients[c]
  }

  /** Every step but a commit changes one unfinished client, and no row. */
  ghost predicate Local(s: State, c: ClientId, s': State) {
    && s'.db == s.db && c in s'.clients && s'.clients == s.clients[c := s'.clients[c]]
    && (c in s.clients ==> !s.clients[c].at.Committed?)
  }

  lemma ProposerLocal(s: State, c: ClientId, s': State)
    requires ProposerStep(s, c, s')
    ensures Local(s, c, s')
  {
  }

  lemma ReviewerLocal(s: State, c: ClientId, s': State)
    requires ReviewerStep(s, c, s')
    ensures Local(s, c, s')
  {
    if LockRow(s, c, s') {
    } else if LoadRow(s, c, s') {
    } else if ComparePrior(s, c, s') {
    } else if InsertReview(s, c, s') {
    } else if ReloadAfterRefusal(s, c, s') {
    }
  }

  lemma LocalLater(s: State, c: ClientId, s': State)
    requires Local(s, c, s')
    ensures Later(s, s')
  {
  }

  lemma CommitLater(s: State, c: ClientId, s': State)
    requires Inv(s) && Commit(s, c, s')
    ensures Later(s, s')
  {
    assert ClientOk(s, c, s.clients[c]);
  }

  lemma StepLater(s: State, c: ClientId, s': State)
    requires Inv(s) && StepOf(s, c, s')
    ensures Later(s, s')
  {
    if Commit(s, c, s') {
      CommitLater(s, c, s');
    } else {
      if ProposerStep(s, c, s') {
        ProposerLocal(s, c, s');
      } else if ReviewerStep(s, c, s') {
        ReviewerLocal(s, c, s');
      }
      LocalLater(s, c, s');
    }
  }

  lemma LaterTrans(a: State, b: State, c: State)
    requires Later(a, b) && Later(b, c)
    ensures Later(a, c)
  {
  }

  lemma LaterSelf(s: State)
    ensures Later(s, s)
  {
  }

  /** A settled proposal and its review never change again, however it is proposed or reviewed. */
  lemma SettledForever(run: seq<State>, i: nat, j: nat)
    requires IsRun(StepOf, run) && Init(run[0]) && i <= j < |run|
    ensures Later(run[i], run[j])
  {
    var from := run[i];
    var keeps := (t: State) => Inv(t) && Later(from, t);
    RunKeepsInv(run, i);
    LaterSelf(from);
    forall s: State, c: ClientId, t: State | keeps(s) && StepOf(s, c, t) ensures keeps(t) {
      StepKeepsInv(s, c, t);
      StepLater(s, c, t);
      LaterTrans(from, s, t);
    }
    KeptByRun(StepOf, keeps, run, i, j);
  }

  /** Every accepted review call was answered the proposal as it is stored for good; a proposer was
      answered a stored proposal of the same fingerprint. */
  lemma AnswersAreFinal(run: seq<State>, i: nat, c: ClientId)
    requires IsRun(StepOf, run) && Init(run[0]) && i < |run| && c in run[i].clients
    requires run[i].clients[c].at.Committed? && run[i].clients[c].at.answer.Ok?
    ensures var k, db := run[i].clients[c], run[i].db;
            && Target(k) in db.proposals
            && IdOf(k.at.answer.proposal) == Target(k)
            && (k.task.ReviewTask? ==> Target(k) in db.reviews && db.proposals[Target(k)] == k.at.answer.proposal)
  {
    RunKeepsInv(run, i);
    assert ClientOk(run[i], c, run[i].clients[c]);
  }

  /** A reviewer that holds the row's lock is never refused, and finds no review once it saw the proposal open. */
  lemma LockedReviewerIsNotRefused(run: seq<State>, i: nat, c: ClientId)
    requires IsRun(StepOf, run) && Init(run[0]) && i < |run| && c in run[i].clients
    requires run[i].clients[c].task.ReviewTask? && Holds(run[i], c, Target(run[i].clients[c]))
    ensures run[i].clients[c].at != Refused
    ensures run[i].clients[c].at.Open? || run[i].clients[c].at.Recorded? ==>
              Target(run[i].clients[c]) !in run[i].db.reviews
  {
    RunKeepsInv(run, i);
    assert ClientOk(run[i], c, run[i].clients[c]);
  }

  // ----- whose decision is answered -----

  /** The stored review of the target is the client's own. */
  ghost predicate Own(db: Db, k: Client)
    requires k.task.ReviewTask?
  {
    Target(k) in db.reviews && db.reviews[Target(k)] == k.task.review
  }

  /** A reviewer that held the lock: it holds it until it is finished, and its accepted answer shows its own review. */
  ghost predicate OwnState(s: State, c: ClientId) {
    && c in s.clients && s.clients[c].task.ReviewTask? && s.clients[c].at != Waiting
    && var k := s.clients[c];
       if Finished(k.at) then k.at.Committed? && k.at.answer.Ok? ==> Own(s.db, k)
       else
         && Holds(s, c, Target(k))
         && (k.at.Answered? && k.at.answer.Ok? ==> k.review.Some? || Own(s.db, k))
  }

  lemma OthersKeepLock(s: State, d: ClientId, s': State, c: ClientId, id: ProposalId)
    requires StepOf(s, d, s') && d != c && Holds(s, c, id)
    ensures Holds(s', c, id)
  {
    if ProposerStep(s, d, s') {
    } else if ReviewerStep(s, d, s') {
      if LockRow(s, d, s') {
      } else if UpdateRow(s, d, s') {
      } else if LoadRow(s, d, s') {
      } else if ComparePrior(s, d, s') {
      } else if InsertReview(s, d, s') {
      }
    } else if Commit(s, d, s') {
    }
  }

  lemma OthersKeepOwnState(s: State, d: ClientId, s': State, c: ClientId)
    requires Inv(s) && StepOf(s, d, s') && d != c && OwnState(s, c)
    ensures OwnState(s', c)
  {
    StepLater(s, d, s');
    SameClient(s, d, s', c);
    if !Finished(s.clients[c].at) {
      OthersKeepLock(s, d, s', c, Target(s.clients[c]));
    }
  }

  lemma SameClient(s: State, d: ClientId, s': State, c: ClientId)
    requires StepOf(s, d, s') && d != c && c in s.clients
    ensures c in s'.clients && s'.clients[c] == s.clients[c]
  {
    if ProposerStep(s, d, s') {
      ProposerLocal(s, d, s');
    } else if ReviewerStep(s, d, s') {
      ReviewerLocal(s, d, s');
    }
  }

  lemma ReviewerKeepsOwnState(s: State, c: ClientId, s': State)
    requires Inv(s) && ReviewerStep(s, c, s') && OwnState(s, c)
    ensures OwnState(s', c)
  {
    assert ClientOk(s, c, s.clients[c]);
    if LoadRow(s, c, s') {
    } else if ComparePrior(s, c, s') {
    } else if InsertReview(s, c, s') {
    } else if UpdateRow(s, c, s') {
    }
  }

  lemma CommitKeepsOwnState(s: State, c: ClientId, s': State)
    requires Inv(s) && Commit(s, c, s') && OwnState(s, c)
    ensures OwnState(s', c)
  {
    assert ClientOk(s, c, s.clients[c]);
  }

  lemma StepKeepsOwnState(s: State, d: ClientId, s': State, c: ClientId)
    requires Inv(s) && StepOf(s, d, s') && OwnState(s, c)
    ensures OwnState(s', c)
  {
    if d != c {
      OthersKeepOwnState(s, d, s', c);
    } else if Commit(s, c, s') {
      CommitKeepsOwnState(s, c, s');
    } else if ReviewerStep(s, c, s') {
      ReviewerKeepsOwnState(s, c, s');
    }
  }

  lemma RunKeepsOwnState(run: seq<State>, i: nat, j: nat, c: ClientId)
    requires IsRun(StepOf, run) && Init(run[0]) && i <= j < |run| && OwnState(run[i], c)
    ensures OwnState(run[j], c)
  {
    RunKeepsInv(run, i);
    var keeps := (s: State) => Inv(s) && OwnState(s, c);
    forall s: State, d: ClientId, t: State | keeps(s) && StepOf(s, d, t) ensures keeps(t) {
      StepKeepsInv(s, d, t);
      StepKeepsOwnState(s, d, t, c);
    }
    KeptByRun(StepOf, keeps, run, i, j);
  }

  /** The reviewer asks for the lock while the proposal is stored, or while it is not. */
  ghost predicate AsksForLock(run: seq<State>, i: nat, c: ClientId, stored: bool) {
    && i + 1 < |run| && LockRow(run[i], c, run[i + 1])
    && (Target(run[i].clients[c]) in run[i].db.proposals <==> stored)
  }

  /** An accepted review call is the caller's own review. */
  ghost predicate AcceptedIsOwn(s: State, c: ClientId) {
    c in s.clients && s.clients[c].task.ReviewTask? && s.clients[c].at.Committed? && s.clients[c].at.answer.Ok?
    ==> Own(s.db, s.clients[c])
  }

  /** A reviewer that asked for the lock while the proposal was stored is answered its own decision, or an error. */
  lemma LockHolderIsNotMisled(run: seq<State>, i: nat, j: nat, c: ClientId)
    requires IsRun(StepOf, run) && Init(run[0]) && AsksForLock(run, i, c, true) && i < j < |run|
    ensures AcceptedIsOwn(run[j], c)
  {
    assert OwnState(run[i + 1], c);
    RunKeepsOwnState(run, i + 1, j, c);
  }

  /** Whether a request for the lock, at a time the proposal is stored or not, makes accepted answers one's own. */
  ghost predicate OwnGuaranteed(stored: bool) {
    forall run, i: nat, j: nat, c: ClientId |
      IsRun(StepOf, run) && Init(run[0]) && AsksForLock(run, i, c, stored) && i < j < |run| :: AcceptedIsOwn(run[j], c)
  }

  /** Accepted answers are one's own exactly when the proposal was stored as the lock was requested. */
  lemma OwnGuaranteedIff(stored: bool)
    ensures OwnGuaranteed(stored) <==> stored
  {
    if stored {
      forall run, i: nat, j: nat, c: ClientId |
        IsRun(StepOf, run) && Init(run[0]) && AsksForLock(run, i, c, stored) && i < j < |run|
        ensures AcceptedIsOwn(run[j], c)
      {
        LockHolderIsNotMisled(run, i, j, c);
      }
    } else {
      var a, b := Review(Confirm, "a", "r", None), Review(Reject, "b", "r", None);
      NotBlank();
      var run, i := MisledRun(Fresh(0, 0, 0), a, b);
      assert Init(run[0]) && AsksForLock(run, i, 3, stored);
      assert !AcceptedIsOwn(run[|run| - 1], 3);
    }
  }

  lemma NotBlank()
    ensures !Blank("a") && !Blank("b") && !Blank("r")
  {
    assert "a"[0] in "a" && "b"[0] in "b" && "r"[0] in "r";
  }

  // ----- repeating a review -----

  /** What a reviewer that came after the proposal was settled may be doing. */
  ghost predicate LateState(s: State, d: ClientId, p: Proposal, answer: Answer) {
    d in s.clients ==>
      var at := s.clients[d].at;
      || at == Waiting || at == Ready || at == Settled(p) || at == Answered(answer) || at == Committed(answer)
      || at == Aborted
  }

  /** The answer to a review call for a settled proposal. */
  function LateAnswer(p: Proposal, stored: Review, r: Review): Answer {
    if r == stored then Ok(p) else Err(InvalidTransition(p.status))
  }

  /** The review task `t` meets a proposal that was settled as `p` by review `r`. */
  ghost predicate Settles(s: State, t: Task, p: Proposal, r: Review) {
    && t.ReviewTask? && t.id in s.db.reviews && s.db.reviews[t.id] == r
    && t.id in s.db.proposals && s.db.proposals[t.id] == p
  }

  /** The reviewer `d` with this task is one of those states. */
  ghost predicate Late(s: State, d: ClientId, t: Task, p: Proposal, r: Review)
    requires t.ReviewTask?
  {
    d in s.clients && s.clients[d].task == t ==> LateState(s, d, p, LateAnswer(p, r, t.review))
  }

  lemma LateOtherStep(s: State, c: ClientId, s': State, d: ClientId, t: Task, p: Proposal, r: Review)
    requires t.ReviewTask? && StepOf(s, c, s') && c != d && Late(s, d, t, p, r)
    ensures Late(s', d, t, p, r)
  {
    if d in s.clients {
      SameClient(s, c, s', d);
    } else {
      OnlyOneMoves(s, c, s', d);
    }
  }

  lemma LateArrival(s: State, s': State, d: ClientId, p: Proposal, answer: Answer)
    requires StepOf(s, d, s') && d !in s.clients
    ensures LateState(s', d, p, answer)
  {
  }

  lemma LateOwnStep(s: State, s': State, d: ClientId, t: Task, p: Proposal, r: Review)
    requires StepOf(s, d, s') && d in s.clients && Settles(s, t, p, r) && p.status != Proposed
    requires s.clients[d].task == t && LateState(s, d, p, LateAnswer(p, r, t.review))
    ensures LateState(s', d, p, LateAnswer(p, r, t.review))
  {
    if ReviewerStep(s, d, s') {
      LateReviewerStep(s, s', d, p, t);
    }
  }

  lemma LateStep(s: State, c: ClientId, s': State, d: ClientId, t: Task, p: Proposal, r: Review)
    requires StepOf(s, c, s') && Settles(s, t, p, r) && p.status != Proposed && Late(s, d, t, p, r)
    ensures Late(s', d, t, p, r)
  {
    if c != d {
      LateOtherStep(s, c, s', d, t, p, r);
    } else if d !in s.clients {
      LateArrival(s, s', d, p, LateAnswer(p, r, t.review));
    } else {
      TaskStep(s, c, s');
      if s.clients[d].task == t {
        LateOwnStep(s, s', d, t, p, r);
      }
    }
  }

  lemma OnlyOneMoves(s: State, c: ClientId, s': State, d: ClientId)
    requires StepOf(s, c, s') && c != d && d !in s.clients
    ensures d !in s'.clients
  {
    if ProposerStep(s, c, s') {
      ProposerLocal(s, c, s');
    } else if ReviewerStep(s, c, s') {
      ReviewerLocal(s, c, s');
    }
  }

  lemma LateReviewerStep(s: State, s': State, d: ClientId, p: Proposal, t: Task)
    requires ReviewerStep(s, d, s') && t.ReviewTask? && s.clients[d].task == t
    requires t.id in s.db.reviews && t.id in s.db.proposals && s.db.proposals[t.id] == p && p.status != Proposed
    requires LateState(s, d, p, LateAnswer(p, s.db.reviews[t.id], t.review))
    ensures LateState(s', d, p, LateAnswer(p, s.db.reviews[t.id], t.review))
  {
    if LockRow(s, d, s') {
    } else if LoadRow(s, d, s') {
    } else if ComparePrior(s, d, s') {
    }
  }

  lemma TaskStep(s: State, c: ClientId, s': State)
    requires StepOf(s, c, s') && c in s.clients
    ensures c in s'.clients && s'.clients[c].task == s.clients[c].task
  {
    if ReviewerStep(s, c, s') {
      ReviewerKeepsTask(s, c, s');
    }
  }

  lemma ReviewerKeepsTask(s: State, c: ClientId, s': State)
    requires ReviewerStep(s, c, s')
    ensures s'.clients[c].task == s.clients[c].task
  {
    if LockRow(s, c, s') {
    } else if LoadRow(s, c, s') {
    } else if ComparePrior(s, c, s') {
    } else if InsertReview(s, c, s') {
    } else if UpdateRow(s, c, s') {
    }
  }

  lemma StillSettled(s: State, s': State, t: Task, p: Proposal, r: Review)
    requires Later(s, s') && Settles(s, t, p, r)
    ensures Settles(s', t, p, r)
  {
  }

  /** What every step keeps once the proposal is settled. */
  ghost predicate LateInv(s: State, d: ClientId, t: Task, p: Proposal, r: Review) {
    Inv(s) && Settles(s, t, p, r) && Late(s, d, t, p, r)
  }

  lemma StepKeepsLate(s: State, c: ClientId, s': State, d: ClientId, t: Task, p: Proposal, r: Review)
    requires StepOf(s, c, s') && LateInv(s, d, t, p, r)
    ensures LateInv(s', d, t, p, r)
  {
    StepKeepsInv(s, c, s');
    StepLater(s, c, s');
    StillSettled(s, s', t, p, r);
    SettledStatus(s.db, t.id);
    LateStep(s, c, s', d, t, p, r);
  }

  lemma SettledStatus(db: Db, id: ProposalId)
    requires Consistent(db) && id in db.reviews
    ensures id in db.proposals && db.proposals[id].status != Proposed
  {
    assert Agrees(db.proposals[id], db.reviews);
  }

  lemma LateRun(run: seq<State>, i: nat, j: nat, d: ClientId, t: Task, p: Proposal, r: Review)
    requires IsRun(StepOf, run) && i <= j < |run| && LateInv(run[i], d, t, p, r)
    ensures LateInv(run[j], d, t, p, r)
  {
    var keeps := (s: State) => LateInv(s, d, t, p, r);
    forall s: State, c: ClientId, s': State | keeps(s) && StepOf(s, c, s') ensures keeps(s') {
      StepKeepsLate(s, c, s', d, t, p, r);
    }
    KeptByRun(StepOf, keeps, run, i, j);
  }

  /** In every run: a review call that arrives when the proposal is settled is answered the stored proposal if it
      repeats the stored review, and is refused otherwise. */
  lemma IdenticalRepeat(run: seq<State>, i: nat, j: nat, d: ClientId)
    requires IsRun(StepOf, run) && Init(run[0]) && i <= j < |run| && d !in run[i].clients && d in run[j].clients
    requires run[j].clients[d].task.ReviewTask? && Target(run[j].clients[d]) in run[i].db.reviews
    requires run[j].clients[d].at.Committed?
    ensures var k, db := run[j].clients[d], run[i].db;
            && Target(k) in db.proposals
            && k.at.answer == LateAnswer(db.proposals[Target(k)], db.reviews[Target(k)], k.task.review)
  {
    RunKeepsInv(run, i);
    var t, db := run[j].clients[d].task, run[i].db;
    LateRun(run, i, j, d, t, db.proposals[t.id], db.reviews[t.id]);
  }

  // ----- the race that is lost -----

  const START := State(Db(map[], map[]), map[], map[])

  function Reviewer(id: ProposalId, r: Review, at: Progress): Client { Client(ReviewTask(id, r), at, None, None) }

  /** Both reviewers arrived, and the first one is past the lock, while the proposal does not exist. */
  function Before(id: ProposalId, a: Review, b: Review): State {
    State(Db(map[], map[]), map[], map[2 := Reviewer(id, a, Ready), 3 := Reviewer(id, b, Waiting)])
  }

  /** Now the second one is past the lock, too. */
  function After(id: ProposalId, a: Review, b: Review): State {
    State(Db(map[], map[]), map[], map[2 := Reviewer(id, a, Ready), 3 := Reviewer(id, b, Ready)])
  }

  lemma BothPassTheLock(id: ProposalId, a: Review, b: Review)
    requires InputError(a).None? && InputError(b).None?
    ensures RunsTo(StepOf, START, Before(id, a, b))
    ensures LockRow(Before(id, a, b), 3, After(id, a, b))
  {
    RunsToSelf(StepOf, START);
    var s1 := With(START, 2, Reviewer(id, a, Waiting));
    assert Arrive(START, 2, ReviewTask(id, a), s1);
    RunsToStep(StepOf, START, START, s1, 2);
    var s2 := With(s1, 2, Reviewer(id, a, Ready));
    assert LockRow(s1, 2, s2);
    RunsToStep(StepOf, START, s1, s2, 2);
    assert Arrive(s2, 3, ReviewTask(id, b), Before(id, a, b));
    RunsToStep(StepOf, START, s2, Before(id, a, b), 3);
    assert With(Before(id, a, b), 3, Reviewer(id, b, Ready)) == After(id, a, b);
  }

  /** Then a proposer inserts the proposal. */
  lemma ProposerInserts(from: State, c: ClientId, p: Proposal)
    requires IsFresh(p) && from.db == Db(map[], map[])
    requires c !in from.clients && forall d | d in from.clients :: from.clients[d].proposal.None?
    ensures RunsTo(StepOf, from, With(from, c, Client(ProposeTask(p), Answered(Ok(p)), Some(p), None)))
  {
    var k := Client(ProposeTask(p), Waiting, None, None);
    var s1, s2 := With(from, c, k), With(from, c, k.(at := Absent));
    var s3 := With(from, c, k.(at := Answered(Ok(p)), proposal := Some(p)));
    RunsToSelf(StepOf, from);
    assert Arrive(from, c, ProposeTask(p), s1);
    RunsToStep(StepOf, from, from, s1, c);
    assert FindEqual(s1, c, s2);
    RunsToStep(StepOf, from, s1, s2, c);
    assert InsertProposal(s2, c, s3);
    RunsToStep(StepOf, from, s2, s3, c);
  }

  /** And commits it. */
  lemma ProposalArrives(from: State, p: Proposal, a: Review, b: Review) returns (s: State)
    requires IsFresh(p) && from == After(IdOf(p), a, b)
    ensures RunsTo(StepOf, from, s)
    ensures s == State(Db(map[IdOf(p) := p], map[]), map[],
                       map[1 := Client(ProposeTask(p), Committed(Ok(p)), None, None),
                           2 := Reviewer(IdOf(p), a, Ready), 3 := Reviewer(IdOf(p), b, Ready)])
  {
    ProposerInserts(from, 1, p);
    var t := With(from, 1, Client(ProposeTask(p), Answered(Ok(p)), Some(p), None));
    s := With(t, 1, Client(ProposeTask(p), Committed(Ok(p)), None, None)).(db := Db(map[IdOf(p) := p], map[]));
    assert WithoutLocks(t, 1) == map[];
    assert Commit(t, 1, s);
    RunsToStep(StepOf, from, t, s, 1);
  }

  lemma BothSeeItOpen(from: State, p: Proposal, a: Review, b: Review) returns (s: State)
    requires IsFresh(p) && from == After(IdOf(p), a, b)
    ensures RunsTo(StepOf, from, s)
    ensures s == State(Db(map[IdOf(p) := p], map[]), map[],
                       map[1 := Client(ProposeTask(p), Committed(Ok(p)), None, None),
                           2 := Reviewer(IdOf(p), a, Open(p)), 3 := Reviewer(IdOf(p), b, Open(p))])
  {
    var t := ProposalArrives(from, p, a, b);
    var s1 := With(t, 2, Reviewer(IdOf(p), a, Open(p)));
    assert LoadRow(t, 2, s1);
    RunsToStep(StepOf, from, t, s1, 2);
    s := With(s1, 3, Reviewer(IdOf(p), b, Open(p)));
    assert LoadRow(s1, 3, s);
    RunsToStep(StepOf, from, s1, s, 3);
  }

  /** The first reviewer settles the proposal. */
  lemma FirstSettles(from: State, p: Proposal, a: Review, b: Review) returns (s: State)
    requires IsFresh(p) && from == After(IdOf(p), a, b)
    ensures RunsTo(StepOf, from, s)
    ensures s.db == Db(map[IdOf(p) := Settle(p, a)], map[IdOf(p) := a]) && s.locks == map[]
    ensures 3 in s.clients && s.clients[3] == Reviewer(IdOf(p), b, Open(p))
  {
    var t := BothSeeItOpen(from, p, a, b);
    var id, k := IdOf(p), Reviewer(IdOf(p), a, Open(p));
    var s1 := With(t, 2, k.(at := Recorded(p), review := Some(a)));
    assert InsertReview(t, 2, s1);
    RunsToStep(StepOf, from, t, s1, 2);
    var answered := k.(at := Answered(Ok(Settle(p, a))), review := Some(a), proposal := Some(Settle(p, a)));
    var s2 := With(s1, 2, answered).(locks := map[id := 2]);
    assert UpdateRow(s1, 2, s2);
    RunsToStep(StepOf, from, s1, s2, 2);
    s := State(Db(map[id := Settle(p, a)], map[id := a]), map[],
               s2.clients[2 := k.(at := Committed(Ok(Settle(p, a))))]);
    assert WithoutLocks(s2, 2) == map[];
    assert Commit(s2, 2, s);
    RunsToStep(StepOf, from, s2, s, 2);
  }

  /** The second one is refused, and answered the first one's decision. */
  lemma SecondIsMisled(from: State, p: Proposal, a: Review, b: Review) returns (s: State)
    requires IsFresh(p) && from == After(IdOf(p), a, b)
    ensures RunsTo(StepOf, from, s)
    ensures 3 in s.clients && s.clients[3] == Reviewer(IdOf(p), b, Committed(Ok(Settle(p, a))))
    ensures IdOf(p) in s.db.reviews && s.db.reviews[IdOf(p)] == a
  {
    var t := FirstSettles(from, p, a, b);
    var k := Reviewer(IdOf(p), b, Open(p));
    var s1 := With(t, 3, k.(at := Refused));
    assert InsertReview(t, 3, s1);
    RunsToStep(StepOf, from, t, s1, 3);
    var s2 := With(s1, 3, k.(at := Answered(Ok(Settle(p, a)))));
    assert ReloadAfterRefusal(s1, 3, s2);
    RunsToStep(StepOf, from, s1, s2, 3);
    s := With(s2, 3, k.(at := Committed(Ok(Settle(p, a)))));
    assert WithoutLocks(s2, 3) == map[];
    assert Commit(s2, 3, s);
    RunsToStep(StepOf, from, s2, s, 3);
  }

  lemma MisledRun(p: Proposal, a: Review, b: Review) returns (run: seq<State>, i: nat)
    requires InputError(a).None? && InputError(b).None? && IsFresh(p)
    ensures IsRun(StepOf, run) && run[0] == START && AsksForLock(run, i, 3, false)
    ensures var s := run[|run| - 1];
            && 3 in s.clients && s.clients[3] == Reviewer(IdOf(p), b, Committed(Ok(Settle(p, a))))
            && IdOf(p) in s.db.reviews && s.db.reviews[IdOf(p)] == a
  {
    var before, after := Before(IdOf(p), a, b), After(IdOf(p), a, b);
    BothPassTheLock(IdOf(p), a, b);
    var s := SecondIsMisled(after, p, a, b);
    assert StepOf(before, 3, after);
    run, i := JoinRuns(StepOf, START, before, 3, after, s);
  }

  /** A lock requested before the proposal is stored locks nothing.  Two reviewers can then meet, and the
      second is answered the first one's decision as if its own had been applied; its review is not kept. */
  lemma UnlockedReviewerCanBeMisled(p: Proposal, a: Review, b: Review) returns (s: State)
    requires InputError(a).None? && InputError(b).None? && IsFresh(p)
    ensures RunsTo(StepOf, START, s)
    ensures 3 in s.clients && s.clients[3] == Reviewer(IdOf(p), b, Committed(Ok(Settle(p, a))))
    ensures IdOf(p) in s.db.reviews && s.db.reviews[IdOf(p)] == a
  {
    var run, _ := MisledRun(p, a, b);
    s := run[|run| - 1];
  }
}
