/** Failure-group proposals and their single human review: data, the service, and its repository. */
module Review {
  import opened Ordering
  import opened Text

  type Fingerprint = nat
  type Kind = nat

  /** A proposal's id is derived from its fingerprint; a caller may also ask for any other id. */
  datatype ProposalId = OfFingerprint(fingerprint: Fingerprint) | Arbitrary(value: nat)

  datatype Status = Proposed | Confirmed | Corrected | Rejected

  datatype Decision = Confirm | Correct | Reject

  /** `content` stands for the fields that no review touches. */
  datatype Proposal = Proposal(fingerprint: Fingerprint, predictedKind: Kind, content: nat, status: Status,
                               reviewedBy: string, reason: string, correctedKind: Option<Kind>)

  datatype Review = Review(decision: Decision, reviewer: string, reason: string, correctedKind: Option<Kind>)

  datatype Error = BlankReviewer | BlankReason | KindRequired | KindNotAccepted
                 | NotFound | InvalidTransition(status: Status) | Unconfirmed

  datatype Answer = Ok(proposal: Proposal) | Err(error: Error)

  function IdOf(p: Proposal): ProposalId { OfFingerprint(p.fingerprint) }

  /** A proposal as grouping makes it. */
  function Fresh(fingerprint: Fingerprint, predictedKind: Kind, content: nat): Proposal {
    Proposal(fingerprint, predictedKind, content, Proposed, "", "", None)
  }

  predicate Blank(s: string) { forall c | c in s :: IsSpace(c) }

  /** The checks on the input, in order. */
  function InputError(r: Review): Option<Error> {
    if Blank(r.reviewer) then Some(BlankReviewer)
    else if Blank(r.reason) then Some(BlankReason)
    else if r.decision == Correct && r.correctedKind.None? then Some(KindRequired)
    else if r.decision != Correct && r.correctedKind.Some? then Some(KindNotAccepted)
    else None
  }

  /** The text has a character that is not white space. */
  ghost predicate Says(text: string) { exists i :: 0 <= i < |text| && !IsSpace(text[i]) }

  /** A review names its reviewer and its reason, and a kind exactly when it corrects the predicted one. */
  ghost predicate Complete(r: Review) {
    Says(r.reviewer) && Says(r.reason) && (r.decision == Correct <==> r.correctedKind != None)
  }

  lemma BlankIffSilent(text: string)
    ensures Blank(text) <==> !Says(text)
  {
    if !Blank(text) {
      var c :| c in text && !IsSpace(c);
      var i :| 0 <= i < |text| && text[i] == c;
    }
  }

  /** The input is accepted exactly when it is complete; otherwise the error names what is missing first. */
  lemma InputErrorMeans(r: Review)
    ensures InputError(r) == None <==> Complete(r)
    ensures InputError(r) == Some(BlankReviewer) <==> !Says(r.reviewer)
    ensures InputError(r) == Some(BlankReason) <==> Says(r.reviewer) && !Says(r.reason)
    ensures InputError(r) == Some(KindRequired) <==>
              Says(r.reviewer) && Says(r.reason) && r.decision == Correct && r.correctedKind == None
    ensures InputError(r) == Some(KindNotAccepted) <==>
              Says(r.reviewer) && Says(r.reason) && r.decision != Correct && r.correctedKind != None
  {
    BlankIffSilent(r.reviewer);
    BlankIffSilent(r.reason);
  }

  function StatusFor(d: Decision): Status {
    match d
    case Confirm => Confirmed
    case Correct => Corrected
    case Reject => Rejected
  }

  function Settle(p: Proposal, r: Review): Proposal {
    p.(status := StatusFor(r.decision), reviewedBy := r.reviewer, reason := r.reason, correctedKind := r.correctedKind)
  }

  // ----- the database as a value -----

  datatype Db = Db(proposals: map<ProposalId, Proposal>, reviews: map<ProposalId, Review>)

  /** A proposal agrees with its review, or is untouched and has none. */
  ghost predicate Agrees(p: Proposal, reviews: map<ProposalId, Review>) {
    if IdOf(p) in reviews then
      var r := reviews[IdOf(p)];
      InputError(r).None? && p == Settle(p, r)
    else
      p == Fresh(p.fingerprint, p.predictedKind, p.content)
  }

  ghost predicate Consistent(db: Db) {
    && (forall k | k in db.proposals :: k == IdOf(db.proposals[k]) && Agrees(db.proposals[k], db.reviews))
    && db.reviews.Keys <= db.proposals.Keys
  }

  /** Storing a fresh proposal; an equal fingerprint keeps the stored one. */
  function Propose(db: Db, p: Proposal): (Db, Proposal) {
    if IdOf(p) in db.proposals then (db, db.proposals[IdOf(p)])
    else (db.(proposals := db.proposals[IdOf(p) := p]), p)
  }

  function ProposeAll(db: Db, ps: seq<Proposal>): (Db, seq<Proposal>) {
    if ps == [] then (db, [])
    else
      var (before, saved) := ProposeAll(db, ps[..|ps| - 1]);
      var (after, last) := Propose(before, ps[|ps| - 1]);
      (after, saved + [last])
  }

  /** One review: exactly once, repeatable by the same reviewer with the same words. */
  function Decide(db: Db, id: ProposalId, r: Review): (Db, Answer) {
    if InputError(r).Some? then (db, Err(InputError(r).value))
    else if id !in db.proposals then (db, Err(NotFound))
    else
      var p := db.proposals[id];
      if p.status != Proposed then
        (db, if id in db.reviews && db.reviews[id] == r then Ok(p) else Err(InvalidTransition(p.status)))
      else if id in db.reviews then (db, Ok(p))
      else (Db(db.proposals[id := Settle(p, r)], db.reviews[id := r]), Ok(Settle(p, r)))
  }

  datatype ConfirmedGroup = ConfirmedGroup(id: ProposalId, kind: Kind, review: Review)

  function ConfirmedOf(db: Db, id: ProposalId): Option<ConfirmedGroup> {
    if id in db.proposals && (db.proposals[id].status == Confirmed || db.proposals[id].status == Corrected)
       && id in db.reviews
    then
      var p := db.proposals[id];
      Some(ConfirmedGroup(id, if p.correctedKind.Some? then p.correctedKind.value else p.predictedKind, db.reviews[id]))
    else None
  }

  // ----- the repository and the service -----

  class ReviewRepository {
    var proposals: map<ProposalId, Proposal>
    var reviews: map<ProposalId, Review>

    ghost function Contents(): Db reads this { Db(proposals, reviews) }

    constructor ()
      ensures Contents() == Db(map[], map[])
    {
      proposals, reviews := map[], map[];
    }

    /** Finds a proposal by fingerprint, looking through the stored ones. */
    method GetByFingerprint(f: Fingerprint) returns (r: Option<Proposal>)
      requires Consistent(Contents())
      ensures r == if OfFingerprint(f) in proposals then Some(proposals[OfFingerprint(f)]) else None
    {
      var ids := proposals.Keys;
      while ids != {}
        invariant ids <= proposals.Keys
        invariant OfFingerprint(f) in proposals ==> OfFingerprint(f) in ids
        decreases |ids|
      {
        var id :| id in ids;
        assert id == IdOf(proposals[id]);
        if proposals[id].fingerprint == f {
          return Some(proposals[id]);
        }
        ids := ids - {id};
      }
      return None;
    }

    method SaveProposal(p: Proposal) returns (saved: Proposal)
      requires Consistent(Contents())
      modifies this`proposals
      ensures (Contents(), saved) == Propose(old(Contents()), p)
    {
      var existing := GetByFingerprint(p.fingerprint);
      if existing.Some? {
        return existing.value;
      }
      proposals := proposals[IdOf(p) := p];
      saved := p;
    }

    method UpdateProposal(p: Proposal)
      modifies this`proposals
      ensures proposals == old(proposals)[IdOf(p) := p]
    {
      proposals := proposals[IdOf(p) := p];
    }

    method SaveReview(id: ProposalId, r: Review) returns (saved: bool)
      modifies this`reviews
      ensures saved <==> id !in old(reviews)
      ensures reviews == if saved then old(reviews)[id := r] else old(reviews)
    {
      if id in reviews {
        return false;
      }
      reviews := reviews[id := r];
      saved := true;
    }

    /** Stores the proposals of one grouping, in order. */
    method ProposeGroups(ps: seq<Proposal>) returns (saved: seq<Proposal>)
      requires Consistent(Contents()) && forall p | p in ps :: p == Fresh(p.fingerprint, p.predictedKind, p.content)
      modifies this`proposals
      ensures (Contents(), saved) == ProposeAll(old(Contents()), ps)
      ensures Consistent(Contents())
    {
      saved := [];
      for i := 0 to |ps|
        invariant (Contents(), saved) == ProposeAll(old(Contents()), ps[..i])
        invariant Consistent(Contents())
        invariant reviews == old(reviews)
      {
        assert ps[..i + 1][..i] == ps[..i];
        ProposeKeeps(Contents(), ps[i]);
        var one := SaveProposal(ps[i]);
        saved := saved + [one];
      }
      assert ps[..|ps|] == ps;
    }

    method ReviewProposal(id: ProposalId, r: Review) returns (answer: Answer)
      requires Consistent(Contents())
      modifies this
      ensures (Contents(), answer) == Decide(old(Contents()), id, r)
    {
      var error := InputError(r);
      if error.Some? {
        return Err(error.value);
      }
      if id !in proposals {
        return Err(NotFound);
      }
      var p := proposals[id];
      if p.status != Proposed {
        if id in reviews && reviews[id] == r {
          return Ok(p);
        }
        return Err(InvalidTransition(p.status));
      }
      var saved := SaveReview(id, r);
      if !saved {
        return Ok(p);
      }
      var updated := Settle(p, r);
      UpdateProposal(updated);
      answer := Ok(updated);
    }

    method RequireConfirmed(id: ProposalId) returns (r: Option<ConfirmedGroup>)
      ensures r == ConfirmedOf(Contents(), id)
    {
      if id !in proposals {
        return None;
      }
      var p := proposals[id];
      if p.status != Confirmed && p.status != Corrected {
        return None;
      }
      if id !in reviews {
        return None;
      }
      var kind := if p.correctedKind.Some? then p.correctedKind.value else p.predictedKind;
      r := Some(ConfirmedGroup(id, kind, reviews[id]));
    }
  }

  // ----- what holds of every sequence of calls -----

  lemma ProposeKeeps(db: Db, p: Proposal)
    requires Consistent(db) && p == Fresh(p.fingerprint, p.predictedKind, p.content)
    ensures Consistent(Propose(db, p).0)
  {
    assert IdOf(p) !in db.proposals ==> IdOf(p) !in db.reviews;
  }

  lemma DecideKeeps(db: Db, id: ProposalId, r: Review)
    requires Consistent(db)
    ensures Consistent(Decide(db, id, r).0)
  {
    var db' := Decide(db, id, r).0;
    forall k | k in db'.proposals ensures k == IdOf(db'.proposals[k]) && Agrees(db'.proposals[k], db'.reviews) {
      assert k == IdOf(db.proposals[k]) && Agrees(db.proposals[k], db.reviews);
    }
  }

  /** A proposal is open exactly while it has no review; afterwards it shows that review's decision. */
  lemma StatusShowsReview(db: Db, id: ProposalId)
    requires Consistent(db) && id in db.proposals
    ensures db.proposals[id].status == Proposed <==> id !in db.reviews
    ensures id in db.reviews ==>
              && db.proposals[id].status == StatusFor(db.reviews[id].decision)
              && db.proposals[id].reviewedBy == db.reviews[id].reviewer
              && (db.proposals[id].correctedKind.Some? <==> db.proposals[id].status == Corrected)
  {
    assert Agrees(db.proposals[id], db.reviews);
  }

  datatype Call = ProposeCall(p: Proposal) | DecideCall(id: ProposalId, review: Review)

  predicate Legal(call: Call) {
    call.ProposeCall? ==> call.p == Fresh(call.p.fingerprint, call.p.predictedKind, call.p.content)
  }

  function Perform(db: Db, call: Call): (Db, Answer) {
    match call
    case ProposeCall(p) => var (db', saved) := Propose(db, p); (db', Ok(saved))
    case DecideCall(id, r) => Decide(db, id, r)
  }

  function PerformAll(db: Db, calls: seq<Call>): Db {
    if calls == [] then db else Perform(PerformAll(db, calls[..|calls| - 1]), calls[|calls| - 1]).0
  }

  lemma {:induction false} CallsKeep(db: Db, calls: seq<Call>)
    requires Consistent(db) && forall c | c in calls :: Legal(c)
    ensures Consistent(PerformAll(db, calls))
  {
    if calls != [] {
      var front, last := calls[..|calls| - 1], calls[|calls| - 1];
      CallsKeep(db, front);
      assert Legal(last);
      if last.ProposeCall? {
        ProposeKeeps(PerformAll(db, front), last.p);
      } else {
        DecideKeeps(PerformAll(db, front), last.id, last.review);
      }
    }
  }

  /** A decision that was once accepted stands through any later calls: the proposal is unchanged,
      proposing it again does not reopen it, the same review is answered alike, and any other is refused. */
  lemma {:induction false} DecisionStands(db: Db, id: ProposalId, r: Review, calls: seq<Call>)
    requires Consistent(db) && Decide(db, id, r).1.Ok? && forall c | c in calls :: Legal(c)
    ensures var settled := Decide(db, id, r).1.proposal;
            var later := PerformAll(Decide(db, id, r).0, calls);
            && id in later.proposals && later.proposals[id] == settled
            && Complete(r) && settled.status == StatusFor(r.decision)
            && settled.reviewedBy == r.reviewer && settled.reason == r.reason
            && settled.correctedKind == r.correctedKind
            && id in later.reviews && later.reviews[id] == r
            && Decide(later, id, r) == (later, Ok(settled))
            && (forall other: Review | other != r && InputError(other).None? ::
                  Decide(later, id, other) == (later, Err(InvalidTransition(settled.status))))
            && (forall p: Proposal | IdOf(p) == id :: Propose(later, p) == (later, settled))
  {
    var first := Decide(db, id, r).0;
    InputErrorMeans(r);
    assert Agrees(db.proposals[id], db.reviews);
    DecideKeeps(db, id, r);
    assert id in first.reviews && first.reviews[id] == r;
    CallsKeepSettled(first, id, calls);
    CallsKeep(first, calls);
    var later := PerformAll(first, calls);
    assert Agrees(later.proposals[id], later.reviews);
  }

  lemma {:induction false} CallsKeepSettled(db: Db, id: ProposalId, calls: seq<Call>)
    requires Consistent(db) && id in db.reviews && forall c | c in calls :: Legal(c)
    ensures id in PerformAll(db, calls).proposals && PerformAll(db, calls).proposals[id] == db.proposals[id]
    ensures id in PerformAll(db, calls).reviews && PerformAll(db, calls).reviews[id] == db.reviews[id]
  {
    if calls != [] {
      var front := calls[..|calls| - 1];
      CallsKeepSettled(db, id, front);
      CallsKeep(db, front);
      PerformKeepsSettled(PerformAll(db, front), id, calls[|calls| - 1]);
    }
  }

  lemma PerformKeepsSettled(db: Db, id: ProposalId, call: Call)
    requires Consistent(db) && id in db.reviews && id in db.proposals
    ensures id in Perform(db, call).0.proposals && Perform(db, call).0.proposals[id] == db.proposals[id]
    ensures id in Perform(db, call).0.reviews && Perform(db, call).0.reviews[id] == db.reviews[id]
  {
    assert Agrees(db.proposals[id], db.reviews);
  }

  /** Only a confirmed or corrected proposal is handed on, with the corrected kind when there is one. */
  lemma ConfirmedIff(db: Db, id: ProposalId)
    requires Consistent(db)
    ensures ConfirmedOf(db, id).Some? <==> id in db.reviews && db.reviews[id].decision != Reject
    ensures ConfirmedOf(db, id).Some? ==>
              var g := ConfirmedOf(db, id).value;
              && g.review == db.reviews[id]
              && (g.review.decision == Correct ==> Some(g.kind) == g.review.correctedKind)
              && (g.review.decision == Confirm ==> g.kind == db.proposals[id].predictedKind)
  {
    if id in db.proposals {
      assert Agrees(db.proposals[id], db.reviews);
    }
  }
}
