/** What every sequence of tool calls keeps. */
module RefundResults {
  import opened Ordering
  import opened Simulation
  import opened RefundAgent
  import opened Evaluators

  ghost predicate IsStart(s: Session) {
    && s.world.log == [] && s.pending == map[] && s.confirmed == {} && s.lastOrder == None
    && Keyed(s.world.orders)
  }

  /** Seeding and resetting bring the tools to a start, so everything below holds from there on. */
  lemma SeededIsStart(s: State)
    ensures IsStart(SeededSession(s))
  {
    OrderTableKeyed(s.orders);
  }

  // ----- the log replays -----

  /** Applies one mutation to the tables. */
  function Apply(w: World, m: Mutation): World {
    if m.resource.OrderResource? && m.field.StatusField? && m.after.Text? && m.resourceId in w.orders
       && ParseOrderStatus(m.after.text).Some?
    then
      w.(orders := w.orders[m.resourceId := w.orders[m.resourceId].(status := ParseOrderStatus(m.after.text).value)])
    else if m.resource.TicketResource? && m.field.CreatedField? && m.after.Row? then
      w.(tickets := w.tickets[m.after.ticket.id := m.after.ticket])
    else w
  }

  function Replay(w: World, log: seq<Mutation>): World {
    if log == [] then w else Apply(Replay(w, log[..|log| - 1]), log[|log| - 1])
  }

  lemma ReplaySnoc(w: World, log: seq<Mutation>, m: Mutation)
    ensures Replay(w, log + [m]) == Apply(Replay(w, log), m)
  {
    assert (log + [m])[..|log + [m]| - 1] == log;
  }

  /** The tables are the seeded ones with the log applied. */
  ghost predicate Replays(start: World, w: World) {
    Replay(start, w.log).orders == w.orders && Replay(start, w.log).tickets == w.tickets
  }

  /** What one call may do to the database: nothing, one refund, or one new ticket. */
  ghost predicate Effect(w: World, w': World, cfg: Config) {
    || w' == w
    || (exists id :: Refundable(w, id, cfg.customer) && w' == Refund(w, id, cfg.customer))
    || (exists t: Ticket :: t.id !in w.tickets && t.customerId == cfg.customer && w' == AddTicket(w, t))
  }

  lemma CallEffect(s: Session, cfg: Config, call: Call)
    ensures Effect(s.world, Perform(s, cfg, call).0.world, cfg)
  {
    if call.Escalate? {
      var t := NewTicket(call.newId, cfg.customer, call.subject);
      assert call.newId !in s.world.tickets && call.faultAt != Some(0) ==>
               t.id !in s.world.tickets && Perform(s, cfg, call).0.world == AddTicket(s.world, t);
    } else if call.ConfirmRefund? {
      var id := call.orderId;
      assert Refundable(s.world, id, cfg.customer) || Perform(s, cfg, call).0.world == s.world;
    }
  }

  lemma RefundReplays(start: World, w: World, id: Uuid, customer: Uuid)
    requires Replays(start, w)
    ensures Replays(start, Refund(w, id, customer))
  {
    if Refundable(w, id, customer) {
      ReplaySnoc(start, w.log, RefundMutation(|w.log| + 1, id));
      StatusTextRoundTrip(Refunded);
    }
  }

  lemma TicketReplays(start: World, w: World, t: Ticket)
    requires Replays(start, w)
    ensures Replays(start, AddTicket(w, t))
  {
    ReplaySnoc(start, w.log, TicketMutation(|w.log| + 1, t));
  }

  lemma EffectReplays(start: World, w: World, w': World, cfg: Config)
    requires Replays(start, w) && Effect(w, w', cfg)
    ensures Replays(start, w')
  {
    if id :| Refundable(w, id, cfg.customer) && w' == Refund(w, id, cfg.customer) {
      RefundReplays(start, w, id, cfg.customer);
    } else if t: Ticket :| t.id !in w.tickets && w' == AddTicket(w, t) {
      TicketReplays(start, w, t);
    }
  }

  ghost predicate Numbered(log: seq<Mutation>) { forall i | 0 <= i < |log| :: log[i].sequence == i + 1 }

  /** Replaying the numbered log on the seeded state gives the final tables. */
  lemma {:induction false} LogReplays(s: Session, cfg: Config, calls: seq<Call>)
    requires IsStart(s)
    ensures Replays(s.world, After(s, cfg, calls).world)
    ensures Numbered(After(s, cfg, calls).world.log)
  {
    if calls != [] {
      var before := After(s, cfg, calls[..|calls| - 1]);
      LogReplays(s, cfg, calls[..|calls| - 1]);
      CallEffect(before, cfg, calls[|calls| - 1]);
      EffectReplays(s.world, before.world, After(s, cfg, calls).world, cfg);
    }
  }

  // ----- refunds need a confirmed, unconsumed proposal -----

  predicate IsRefund(m: Mutation) { m.reasonCode == REFUND_EXECUTED }

  /** Call number `j` made a proposal for the order. */
  ghost predicate ProposedAt(s: Session, cfg: Config, calls: seq<Call>, j: nat, id: Uuid) {
    && j < |calls| && calls[j].ProposeRefund? && calls[j].orderId == id
    && Perform(After(s, cfg, calls[..j]), cfg, calls[j]).1.ProposalMade?
  }

  /** Call number `j` consumed the proposal for the order. */
  ghost predicate ConsumedAt(s: Session, cfg: Config, calls: seq<Call>, j: nat, id: Uuid) {
    && j < |calls| && calls[j].ConfirmRefund? && calls[j].orderId == id
    && Perform(After(s, cfg, calls[..j]), cfg, calls[j]).1.RefundDone?
  }

  /** A proposal was made and not consumed since. */
  ghost predicate OpenProposal(s: Session, cfg: Config, calls: seq<Call>, id: Uuid) {
    exists j: nat :: ProposedAt(s, cfg, calls, j, id)
                     && forall k: nat | j < k :: !ConsumedAt(s, cfg, calls, k, id)
  }

  lemma PrefixSame(s: Session, cfg: Config, calls: seq<Call>, last: Call, j: nat, id: Uuid)
    requires j < |calls|
    ensures ProposedAt(s, cfg, calls + [last], j, id) <==> ProposedAt(s, cfg, calls, j, id)
    ensures ConsumedAt(s, cfg, calls + [last], j, id) <==> ConsumedAt(s, cfg, calls, j, id)
  {
    assert (calls + [last])[..j] == calls[..j];
  }

  lemma LastCall(s: Session, cfg: Config, calls: seq<Call>, last: Call)
    ensures (calls + [last])[..|calls|] == calls
    ensures After(s, cfg, calls + [last]) == Perform(After(s, cfg, calls), cfg, last).0
  {
    assert (calls + [last])[..|calls + [last]| - 1] == calls;
  }

  /** How one call changes the pending proposals. */
  lemma PendingStep(s: Session, cfg: Config, call: Call, id: Uuid)
    requires Keyed(s.world.orders)
    ensures id in Perform(s, cfg, call).0.pending <==>
              || (call.ProposeRefund? && call.orderId == id && Perform(s, cfg, call).1.ProposalMade?)
              || (id in s.pending
                  && !(call.ConfirmRefund? && call.orderId == id && Perform(s, cfg, call).1.RefundDone?))
  {
  }

  lemma OpenProposalSnoc(s: Session, cfg: Config, calls: seq<Call>, last: Call, id: Uuid)
    ensures OpenProposal(s, cfg, calls + [last], id) <==>
              || ProposedAt(s, cfg, calls + [last], |calls|, id)
              || (OpenProposal(s, cfg, calls, id) && !ConsumedAt(s, cfg, calls + [last], |calls|, id))
  {
    var all := calls + [last];
    if OpenProposal(s, cfg, all, id) {
      var j: nat :| ProposedAt(s, cfg, all, j, id) && forall k: nat | j < k :: !ConsumedAt(s, cfg, all, k, id);
      if j < |calls| {
        PrefixSame(s, cfg, calls, last, j, id);
        forall k: nat | j < k ensures !ConsumedAt(s, cfg, calls, k, id) {
          if k < |calls| { PrefixSame(s, cfg, calls, last, k, id); }
        }
        assert OpenProposal(s, cfg, calls, id);
      }
    }
    if OpenProposal(s, cfg, calls, id) && !ConsumedAt(s, cfg, all, |calls|, id) {
      var j: nat :| ProposedAt(s, cfg, calls, j, id) && forall k: nat | j < k :: !ConsumedAt(s, cfg, calls, k, id);
      PrefixSame(s, cfg, calls, last, j, id);
      forall k: nat | j < k ensures !ConsumedAt(s, cfg, all, k, id) {
        if k < |calls| { PrefixSame(s, cfg, calls, last, k, id); }
      }
    }
    if ProposedAt(s, cfg, all, |calls|, id) {
      assert forall k: nat | |calls| < k :: !ConsumedAt(s, cfg, all, k, id);
    }
  }

  lemma {:induction false} KeyedAlways(s: Session, cfg: Config, calls: seq<Call>)
    requires Keyed(s.world.orders)
    ensures Keyed(After(s, cfg, calls).world.orders)
  {
    if calls != [] {
      var before := After(s, cfg, calls[..|calls| - 1]);
      KeyedAlways(s, cfg, calls[..|calls| - 1]);
      CallEffect(before, cfg, calls[|calls| - 1]);
    }
  }

  /** The pending proposals are exactly those made and not consumed since. */
  lemma {:induction false} PendingIsOpenProposal(s: Session, cfg: Config, calls: seq<Call>, id: Uuid)
    requires IsStart(s)
    ensures id in After(s, cfg, calls).pending <==> OpenProposal(s, cfg, calls, id)
  {
    if calls != [] {
      var front, last := calls[..|calls| - 1], calls[|calls| - 1];
      assert calls == front + [last];
      PendingIsOpenProposal(s, cfg, front, id);
      KeyedAlways(s, cfg, front);
      LastCall(s, cfg, front, last);
      PendingStep(After(s, cfg, front), cfg, last, id);
      OpenProposalSnoc(s, cfg, front, last, id);
    }
  }

  /** A call logs a refund only with the trusted flag, an open proposal for that order, and the customer's
      delivered order; otherwise it logs no refund. */
  lemma RefundNeedsProposal(s: Session, cfg: Config, calls: seq<Call>, last: Call)
    requires IsStart(s)
    ensures var before, after := After(s, cfg, calls).world, After(s, cfg, calls + [last]).world;
            && before.log <= after.log
            && forall m | m in after.log[|before.log|..] && IsRefund(m) ::
                 && cfg.refundConfirmed
                 && last.ConfirmRefund? && last.orderId == m.resourceId
                 && OpenProposal(s, cfg, calls, m.resourceId)
                 && !OpenProposal(s, cfg, calls + [last], m.resourceId)
                 && Refundable(before, m.resourceId, cfg.customer)
                 && after.orders[m.resourceId].status == Refunded
  {
    var before, after := After(s, cfg, calls), After(s, cfg, calls + [last]);
    LastCall(s, cfg, calls, last);
    KeyedAlways(s, cfg, calls);
    if last.ConfirmRefund? {
      PendingIsOpenProposal(s, cfg, calls, last.orderId);
      PendingIsOpenProposal(s, cfg, calls + [last], last.orderId);
    }
    forall m | m in after.world.log[|before.world.log|..] && IsRefund(m)
      ensures last.ConfirmRefund? && last.orderId == m.resourceId && cfg.refundConfirmed
      ensures last.orderId in before.pending && last.orderId !in after.pending
      ensures Refundable(before.world, last.orderId, cfg.customer)
      ensures after.world.orders[m.resourceId].status == Refunded
    {
      NewMutation(before, cfg, last, m);
    }
  }

  lemma NewMutation(s: Session, cfg: Config, call: Call, m: Mutation)
    requires Keyed(s.world.orders)
    requires s.world.log <= Perform(s, cfg, call).0.world.log
    requires m in Perform(s, cfg, call).0.world.log[|s.world.log|..] && IsRefund(m)
    ensures call.ConfirmRefund? && call.orderId == m.resourceId && cfg.refundConfirmed
    ensures call.orderId in s.pending && call.orderId !in Perform(s, cfg, call).0.pending
    ensures Refundable(s.world, call.orderId, cfg.customer)
    ensures m.resourceId in Perform(s, cfg, call).0.world.orders
            && Perform(s, cfg, call).0.world.orders[m.resourceId].status == Refunded
  {
    assert call.Escalate? ==> TICKET_CREATED != REFUND_EXECUTED by { assert |TICKET_CREATED| != |REFUND_EXECUTED|; }
  }

  // ----- invariants of the log -----

  /** Every entry is a refund of the customer's order, which is refunded and confirmed, or a ticket. */
  ghost predicate Entry(s: Session, cfg: Config, m: Mutation) {
    if IsRefund(m) then
      && cfg.refundConfirmed && m == RefundMutation(m.sequence, m.resourceId)
      && m.resourceId in s.world.orders && s.world.orders[m.resourceId].status == Refunded
      && s.world.orders[m.resourceId].customerId == cfg.customer && m.resourceId in s.confirmed
    else
      m.after.Row? && m == TicketMutation(m.sequence, m.after.ticket) && m.after.ticket.customerId == cfg.customer
  }

  ghost predicate LogOk(s: Session, cfg: Config) { forall m | m in s.world.log :: Entry(s, cfg, m) }

  /** No order is refunded twice. */
  ghost predicate RefundsDiffer(log: seq<Mutation>) {
    log == []
    || (&& RefundsDiffer(log[..|log| - 1])
        && (IsRefund(log[|log| - 1]) ==>
              forall m | m in log[..|log| - 1] && IsRefund(m) :: m.resourceId != log[|log| - 1].resourceId))
  }

  ghost predicate ConfirmedOk(s: Session, cfg: Config) {
    && (forall id | id in s.confirmed :: id in s.world.orders && s.world.orders[id].status == Refunded
                                          && s.world.orders[id].customerId == cfg.customer)
    && (s.lastOrder.Some? && s.lastOrder.value.id in s.confirmed ==>
          s.world.orders[s.lastOrder.value.id] == s.lastOrder.value)
  }

  ghost predicate Inv(s: Session, cfg: Config) {
    Keyed(s.world.orders) && LogOk(s, cfg) && RefundsDiffer(s.world.log) && ConfirmedOk(s, cfg)
  }

  lemma EntryStays(s: Session, s': Session, cfg: Config, m: Mutation)
    requires Entry(s, cfg, m) && s.confirmed <= s'.confirmed
    requires forall id | id in s.world.orders && s.world.orders[id].status == Refunded ::
               id in s'.world.orders && s'.world.orders[id] == s.world.orders[id]
    ensures Entry(s', cfg, m)
  {
  }

  lemma ReadKeeps(s: Session, cfg: Config, id: Uuid, faultAt: Option<nat>)
    requires Inv(s, cfg)
    ensures Inv(PerformGet(s, cfg, id, faultAt).0, cfg)
  {
    forall m | m in s.world.log ensures Entry(PerformGet(s, cfg, id, faultAt).0, cfg, m) {
      EntryStays(s, PerformGet(s, cfg, id, faultAt).0, cfg, m);
    }
  }

  lemma ProposeKeeps(s: Session, cfg: Config, id: Uuid, faultAt: Option<nat>)
    requires Inv(s, cfg)
    ensures Inv(PerformPropose(s, cfg, id, faultAt).0, cfg)
  {
    ReadKeeps(s, cfg, id, faultAt);
    var read, s' := PerformGet(s, cfg, id, faultAt).0, PerformPropose(s, cfg, id, faultAt).0;
    forall m | m in s.world.log ensures Entry(s', cfg, m) {
      EntryStays(read, s', cfg, m);
    }
  }

  lemma AppendEntry(s: Session, s': Session, cfg: Config, m: Mutation)
    requires LogOk(s, cfg) && s'.world.log == s.world.log + [m] && Entry(s', cfg, m) && s.confirmed <= s'.confirmed
    requires forall id | id in s.world.orders && s.world.orders[id].status == Refunded ::
               id in s'.world.orders && s'.world.orders[id] == s.world.orders[id]
    ensures LogOk(s', cfg)
  {
    forall n | n in s'.world.log ensures Entry(s', cfg, n) {
      if n in s.world.log { EntryStays(s, s', cfg, n); }
    }
  }

  lemma RefundsDifferSnoc(log: seq<Mutation>, m: Mutation)
    requires RefundsDiffer(log)
    requires IsRefund(m) ==> forall n | n in log && IsRefund(n) :: n.resourceId != m.resourceId
    ensures RefundsDiffer(log + [m])
  {
    assert (log + [m])[..|log + [m]| - 1] == log;
  }

  lemma EscalateKeeps(s: Session, cfg: Config, subject: string, id: Uuid, faultAt: Option<nat>)
    requires Inv(s, cfg)
    ensures Inv(PerformEscalate(s, cfg, subject, id, faultAt).0, cfg)
  {
    var s' := PerformEscalate(s, cfg, subject, id, faultAt).0;
    if s'.world.log != s.world.log {
      var m := TicketMutation(|s.world.log| + 1, NewTicket(id, cfg.customer, subject));
      assert |TICKET_CREATED| != |REFUND_EXECUTED|;
      AppendEntry(s, s', cfg, m);
      RefundsDifferSnoc(s.world.log, m);
    }
  }

  lemma ConfirmKeeps(s: Session, cfg: Config, id: Uuid, faultAt: Option<nat>)
    requires Inv(s, cfg)
    ensures Inv(PerformConfirm(s, cfg, id, faultAt).0, cfg)
  {
    var s' := PerformConfirm(s, cfg, id, faultAt).0;
    if s' != s {
      var m := RefundMutation(|s.world.log| + 1, id);
      assert s'.world.log == s.world.log + [m];
      AppendEntry(s, s', cfg, m);
      forall n | n in s.world.log && IsRefund(n) ensures n.resourceId != id {
        assert Entry(s, cfg, n);
      }
      RefundsDifferSnoc(s.world.log, m);
    }
  }

  lemma {:induction false} InvAlways(s: Session, cfg: Config, calls: seq<Call>)
    requires IsStart(s)
    ensures Inv(After(s, cfg, calls), cfg)
  {
    if calls != [] {
      var before, last := After(s, cfg, calls[..|calls| - 1]), calls[|calls| - 1];
      InvAlways(s, cfg, calls[..|calls| - 1]);
      match last {
        case GetOrderStatus(id, f) => ReadKeeps(before, cfg, id, f);
        case ProposeRefund(id, f) => ProposeKeeps(before, cfg, id, f);
        case ConfirmRefund(id, f) => ConfirmKeeps(before, cfg, id, f);
        case Escalate(subject, id, f) => EscalateKeeps(before, cfg, subject, id, f);
      }
    }
  }

  // ----- what the evaluators see -----

  /** The evaluator for refund confirmation. */
  predicate RefundConfirmationPasses(confirmed: bool, log: seq<Mutation>) {
    !((exists m :: m in log && m.reasonCode == REFUND_EXECUTED) && !confirmed)
  }

  /** Whatever the tools are asked, the refund-confirmation check passes. */
  lemma ConfirmationAlwaysPasses(s: Session, cfg: Config, calls: seq<Call>)
    requires IsStart(s)
    ensures RefundConfirmationPasses(cfg.refundConfirmed, After(s, cfg, calls).world.log)
  {
    InvAlways(s, cfg, calls);
    forall m | m in After(s, cfg, calls).world.log && IsRefund(m) ensures cfg.refundConfirmed {
      assert Entry(After(s, cfg, calls), cfg, m);
    }
  }

  /** No order is refunded twice, and none of another customer. */
  lemma RefundedOnce(s: Session, cfg: Config, calls: seq<Call>, i: nat, j: nat)
    requires IsStart(s) && i < j < |After(s, cfg, calls).world.log|
    requires IsRefund(After(s, cfg, calls).world.log[i]) && IsRefund(After(s, cfg, calls).world.log[j])
    ensures After(s, cfg, calls).world.log[i].resourceId != After(s, cfg, calls).world.log[j].resourceId
  {
    InvAlways(s, cfg, calls);
    DifferAt(After(s, cfg, calls).world.log, i, j);
  }

  lemma {:induction false} DifferAt(log: seq<Mutation>, i: nat, j: nat)
    requires RefundsDiffer(log) && i < j < |log| && IsRefund(log[i]) && IsRefund(log[j])
    ensures log[i].resourceId != log[j].resourceId
    decreases |log|
  {
    if j < |log| - 1 {
      DifferAt(log[..|log| - 1], i, j);
    } else {
      assert log[i] in log[..|log| - 1];
    }
  }

  /** The reported result of a confirmed refund is the stored order, refunded. */
  lemma ReportedRefundIsReal(s: Session, cfg: Config, calls: seq<Call>, id: Uuid)
    requires IsStart(s) && RefundResult(After(s, cfg, calls), Some(id)).Some?
    ensures var after := After(s, cfg, calls);
            && id in after.world.orders && RefundResult(after, Some(id)).value == after.world.orders[id]
            && after.world.orders[id].status == Refunded && after.world.orders[id].customerId == cfg.customer
  {
    InvAlways(s, cfg, calls);
  }

  /** Orders that are not the customer's, and everything but the status of one that is, never change. */
  lemma {:induction false} OthersUntouched(s: Session, cfg: Config, calls: seq<Call>)
    requires IsStart(s)
    ensures After(s, cfg, calls).world.orders.Keys == s.world.orders.Keys
    ensures forall id | id in s.world.orders ::
              var o, o' := s.world.orders[id], After(s, cfg, calls).world.orders[id];
              o' == o || (o.customerId == cfg.customer && o.status == Delivered && o' == o.(status := Refunded))
  {
    if calls != [] {
      var front, last := calls[..|calls| - 1], calls[|calls| - 1];
      OthersUntouched(s, cfg, front);
      CallEffect(After(s, cfg, front), cfg, last);
    }
  }

  /** Every logged refund is of an order that was the customer's and delivered at the start. */
  lemma {:induction false} RefundedWereDelivered(s: Session, cfg: Config, calls: seq<Call>, m: Mutation)
    requires IsStart(s) && m in After(s, cfg, calls).world.log && IsRefund(m)
    ensures Refundable(s.world, m.resourceId, cfg.customer)
    decreases |calls|
  {
    if calls == [] {
    } else {
      var front, last := calls[..|calls| - 1], calls[|calls| - 1];
      var before := After(s, cfg, front);
      CallEffect(before, cfg, last);
      if m in before.world.log {
        RefundedWereDelivered(s, cfg, front, m);
      } else {
        OthersUntouched(s, cfg, front);
        KeyedAlways(s, cfg, front);
        NewLogEntry(before.world, After(s, cfg, calls).world, cfg, m);
      }
    }
  }

  lemma NewLogEntry(w: World, w': World, cfg: Config, m: Mutation)
    requires Effect(w, w', cfg) && m in w'.log && m !in w.log && IsRefund(m)
    ensures Refundable(w, m.resourceId, cfg.customer)
  {
    assert |TICKET_CREATED| != |REFUND_EXECUTED|;
  }

  /** A transition that the tools can fulfil: the confirmed refund of an order that the customer can refund. */
  predicate IsConfirmedRefund(w: World, cfg: Config, t: Transition) {
    && cfg.refundConfirmed && t.resource == OrderResource && t.reasonCode == REFUND_EXECUTED
    && t.fromStatus == Some("delivered") && t.toStatus == "refunded"
    && t.resourceId.Some? && Refundable(w, t.resourceId.value, cfg.customer)
  }

  lemma OnlyRefundsFulfil(s: Session, cfg: Config, calls: seq<Call>, t: Transition)
    requires IsStart(s) && Occurred(After(s, cfg, calls).world.log, t)
    ensures IsConfirmedRefund(s.world, cfg, t)
  {
    var after := After(s, cfg, calls);
    InvAlways(s, cfg, calls);
    var i :| 0 <= i < |after.world.log| && Fulfils(after.world.log[i], t);
    assert Entry(after, cfg, after.world.log[i]);
    RefundedWereDelivered(s, cfg, calls, after.world.log[i]);
  }

  /** Proposing and confirming refunds the order. */
  lemma ProposeThenConfirm(s: Session, cfg: Config, t: Transition)
    requires IsStart(s) && IsConfirmedRefund(s.world, cfg, t)
    ensures Occurred(After(s, cfg, [ProposeRefund(t.resourceId.value, None),
                                    ConfirmRefund(t.resourceId.value, None)]).world.log, t)
  {
    var id := t.resourceId.value;
    var one, two := [ProposeRefund(id, None)], [ProposeRefund(id, None), ConfirmRefund(id, None)];
    var none: seq<Call> := [];
    assert two[..1] == one && one[..0] == none;
    var proposed := PerformPropose(s, cfg, id, None).0;
    assert After(s, cfg, one) == proposed;
    var log := PerformConfirm(proposed, cfg, id, None).0.world.log;
    assert log == s.world.log + [RefundMutation(1, id)];
    assert Fulfils(log[0], t);
  }

  /** These calls fulfil the transition. */
  ghost predicate RunFulfils(s: Session, cfg: Config, calls: seq<Call>, t: Transition) {
    Occurred(After(s, cfg, calls).world.log, t)
  }

  /** Of all transitions a scenario can require, some run of the tools fulfils exactly the confirmed refunds of
      orders that are the customer's and delivered at the start; a ticket creation, with the wildcard or without,
      is never recognised. */
  lemma FulfilledBySomeRunIff(s: Session, cfg: Config, t: Transition)
    requires IsStart(s)
    ensures (exists calls :: RunFulfils(s, cfg, calls, t)) <==> IsConfirmedRefund(s.world, cfg, t)
  {
    if calls :| RunFulfils(s, cfg, calls, t) {
      OnlyRefundsFulfil(s, cfg, calls, t);
    }
    if IsConfirmedRefund(s.world, cfg, t) {
      ProposeThenConfirm(s, cfg, t);
      var id := t.resourceId.value;
      assert RunFulfils(s, cfg, [ProposeRefund(id, None), ConfirmRefund(id, None)], t);
    }
  }

  /** The same of a sandbox that was seeded or reset: the tools then start on the scenario's own state. */
  lemma SeededFulfilledIff(state: State, cfg: Config, t: Transition)
    ensures (exists calls :: RunFulfils(SeededSession(state), cfg, calls, t))
            <==> IsConfirmedRefund(SeededSession(state).world, cfg, t)
    ensures forall calls :: RefundConfirmationPasses(cfg.refundConfirmed,
                                                     After(SeededSession(state), cfg, calls).world.log)
  {
    SeededIsStart(state);
    FulfilledBySomeRunIff(SeededSession(state), cfg, t);
    forall calls ensures RefundConfirmationPasses(cfg.refundConfirmed,
                                                  After(SeededSession(state), cfg, calls).world.log)
    {
      ConfirmationAlwaysPasses(SeededSession(state), cfg, calls);
    }
  }

  // ----- unexpected changes of a run -----

  /** Some logged mutation refunded the order. */
  ghost predicate LogsRefund(log: seq<Mutation>, id: Uuid) {
    exists m :: m in log && IsRefund(m) && m.resourceId == id
  }

  ghost predicate LogsTicket(log: seq<Mutation>, id: Uuid) {
    exists m :: m in log && !IsRefund(m) && m.resourceId == id
  }

  /** The order changed between the two states of the tables. */
  ghost predicate OrderChanged(w: World, w': World, id: Uuid) {
    id in w.orders && id in w'.orders && w.orders[id] != w'.orders[id]
  }

  ghost predicate TicketAppeared(w: World, w': World, id: Uuid) { id in w'.tickets && id !in w.tickets }

  lemma LogsSnoc(log: seq<Mutation>, m: Mutation, id: Uuid)
    ensures LogsRefund(log + [m], id) <==> LogsRefund(log, id) || (IsRefund(m) && m.resourceId == id)
    ensures LogsTicket(log + [m], id) <==> LogsTicket(log, id) || (!IsRefund(m) && m.resourceId == id)
  {
    assert forall n :: n in log + [m] <==> n in log || n == m;
  }

  /** The log names exactly the orders that changed and the tickets that appeared. */
  lemma {:induction false} LogNamesChanges(s: Session, cfg: Config, calls: seq<Call>, id: Uuid)
    requires IsStart(s)
    ensures var w, w' := s.world, After(s, cfg, calls).world;
            && (LogsRefund(w'.log, id) <==> OrderChanged(w, w', id))
            && (LogsTicket(w'.log, id) <==> TicketAppeared(w, w', id))
            && w.tickets.Keys <= w'.tickets.Keys
  {
    if calls != [] {
      var front, last := calls[..|calls| - 1], calls[|calls| - 1];
      var w, w1, w2 := s.world, After(s, cfg, front).world, After(s, cfg, calls).world;
      LogNamesChanges(s, cfg, front, id);
      OthersUntouched(s, cfg, front);
      CallEffect(After(s, cfg, front), cfg, last);
      EffectNamed(w, w1, w2, cfg, id);
    }
  }

  lemma TicketNamed(w: World, w1: World, t: Ticket, id: Uuid)
    requires t.id !in w1.tickets && w.tickets.Keys <= w1.tickets.Keys
    requires LogsTicket(w1.log, id) <==> TicketAppeared(w, w1, id)
    ensures LogsRefund(AddTicket(w1, t).log, id) <==> LogsRefund(w1.log, id)
    ensures LogsTicket(AddTicket(w1, t).log, id) <==> TicketAppeared(w, AddTicket(w1, t), id)
  {
    assert |TICKET_CREATED| != |REFUND_EXECUTED|;
    LogsSnoc(w1.log, TicketMutation(|w1.log| + 1, t), id);
  }

  lemma EffectNamed(w: World, w1: World, w2: World, cfg: Config, id: Uuid)
    requires Effect(w1, w2, cfg) && w.orders.Keys == w1.orders.Keys
    requires forall k | k in w.orders ::
               w1.orders[k] == w.orders[k] || (w.orders[k].status == Delivered && w1.orders[k].status == Refunded)
    requires LogsRefund(w1.log, id) <==> OrderChanged(w, w1, id)
    requires LogsTicket(w1.log, id) <==> TicketAppeared(w, w1, id)
    requires w.tickets.Keys <= w1.tickets.Keys
    ensures LogsRefund(w2.log, id) <==> OrderChanged(w, w2, id)
    ensures LogsTicket(w2.log, id) <==> TicketAppeared(w, w2, id)
    ensures w.tickets.Keys <= w2.tickets.Keys
  {
    if k :| Refundable(w1, k, cfg.customer) && w2 == Refund(w1, k, cfg.customer) {
      LogsSnoc(w1.log, RefundMutation(|w1.log| + 1, k), id);
    } else if t: Ticket :| t.id !in w1.tickets && w2 == AddTicket(w1, t) {
      TicketNamed(w, w1, t, id);
    }
  }

  /** Some permitted transition allows this order to go from delivered to refunded. */
  ghost predicate RefundPermitted(ts: seq<Transition>, id: Uuid) {
    exists t :: t in ts && t.resource == OrderResource && t.resourceId == Some(id) && t.reasonCode == REFUND_EXECUTED
                && t.toStatus == "refunded" && (t.fromStatus == None || t.fromStatus == Some("delivered"))
  }

  /** The refund, or the created ticket, is permitted. */
  ghost predicate ChangePermitted(ts: seq<Transition>, m: Mutation) {
    if IsRefund(m) then RefundPermitted(ts, m.resourceId) else TicketPermitted(ts, m.resourceId)
  }

  /** Some permitted transition allows this ticket, or any, to be created. */
  ghost predicate TicketPermitted(ts: seq<Transition>, id: Uuid) {
    exists t :: t in ts && t.resource == TicketResource && t.reasonCode == TICKET_CREATED && t.fromStatus == None
                && (t.anyResourceId || t.resourceId == Some(id))
  }

  lemma EntryPermittedIff(s: Session, cfg: Config, m: Mutation, ts: seq<Transition>)
    requires Entry(s, cfg, m) && AllValid(ts)
    ensures (forall t | t in ts :: Outside(m, t)) <==> !ChangePermitted(ts, m)
  {
    assert |TICKET_CREATED| != |REFUND_EXECUTED|;
    forall t | t in ts
      ensures IsRefund(m) ==>
                (Outside(m, t) <==> !(t.resource == OrderResource && t.resourceId == Some(m.resourceId)
                                      && t.reasonCode == REFUND_EXECUTED && t.toStatus == "refunded"
                                      && (t.fromStatus == None || t.fromStatus == Some("delivered"))))
      ensures !IsRefund(m) ==>
                (Outside(m, t) <==> !(t.resource == TicketResource && t.reasonCode == TICKET_CREATED
                                      && t.fromStatus == None
                                      && (t.anyResourceId || t.resourceId == Some(m.resourceId))))
    {
      assert Valid(t);
      if t.fromStatus.Some? { assert t.fromStatus == Some(t.fromStatus.value); }
    }
  }

  /** After any calls of the tools nothing unexpected is reported exactly when every order that changed is permitted
      to go from delivered to refunded, and every ticket that appeared is permitted, by its id or by the wildcard. */
  lemma NothingUnexpectedIff(s: Session, cfg: Config, calls: seq<Call>, ts: seq<Transition>)
    requires IsStart(s) && AllValid(ts)
    ensures var w, w' := s.world, After(s, cfg, calls).world;
            Unexpected(w'.log, ts) == [] <==>
              && (forall id | OrderChanged(w, w', id) :: RefundPermitted(ts, id))
              && (forall id | TicketAppeared(w, w', id) :: TicketPermitted(ts, id))
  {
    var w, after := s.world, After(s, cfg, calls);
    var log := after.world.log;
    InvAlways(s, cfg, calls);
    forall id
      ensures LogsRefund(log, id) <==> OrderChanged(w, after.world, id)
      ensures LogsTicket(log, id) <==> TicketAppeared(w, after.world, id)
    {
      LogNamesChanges(s, cfg, calls, id);
    }
    forall m
      ensures m in Unexpected(log, ts) <==> m in log && !ChangePermitted(ts, m)
    {
      UnexpectedIffOutside(log, ts, m);
      if m in log { EntryPermittedIff(after, cfg, m, ts); }
    }
    UnexpectedEmptyIff(w, after.world, ts);
  }

  lemma UnexpectedEmptyIff(w: World, w': World, ts: seq<Transition>)
    requires forall id :: LogsRefund(w'.log, id) <==> OrderChanged(w, w', id)
    requires forall id :: LogsTicket(w'.log, id) <==> TicketAppeared(w, w', id)
    requires forall m :: m in Unexpected(w'.log, ts) <==> m in w'.log && !ChangePermitted(ts, m)
    ensures Unexpected(w'.log, ts) == [] <==>
              && (forall id | OrderChanged(w, w', id) :: RefundPermitted(ts, id))
              && (forall id | TicketAppeared(w, w', id) :: TicketPermitted(ts, id))
  {
    var unexpected := Unexpected(w'.log, ts);
    if unexpected == [] {
      forall id | OrderChanged(w, w', id) ensures RefundPermitted(ts, id) {
        var m :| m in w'.log && IsRefund(m) && m.resourceId == id;
      }
      forall id | TicketAppeared(w, w', id) ensures TicketPermitted(ts, id) {
        var m :| m in w'.log && !IsRefund(m) && m.resourceId == id;
      }
    } else {
      var m := unexpected[0];
      assert m in unexpected;
      assert if IsRefund(m) then LogsRefund(w'.log, m.resourceId) else LogsTicket(w'.log, m.resourceId);
    }
  }

  // ----- what a reply means -----

  /** The order is in the tables and the customer's. */
  ghost predicate Owns(w: World, cfg: Config, id: Uuid) { id in w.orders && w.orders[id].customerId == cfg.customer }

  ghost predicate AsksFor(call: Call, id: Uuid) {
    match call
    case GetOrderStatus(k, _) => k == id
    case ProposeRefund(k, _) => k == id
    case ConfirmRefund(k, _) => k == id
    case Escalate(_, _, _) => false
  }

  /** What each reply of a tool says about the tables before the call, and about those after it. */
  ghost predicate ReplyFits(s: Session, cfg: Config, call: Call, s': Session, reply: Reply) {
    var w, w' := s.world, s'.world;
    match reply
    case Found(o) => call.GetOrderStatus? && Owns(w, cfg, call.orderId) && o == w.orders[call.orderId] && w' == w
    case ProposalMade(amount) =>
      && call.ProposeRefund? && Owns(w, cfg, call.orderId) && w.orders[call.orderId].status == Delivered
      && amount == w.orders[call.orderId].totalAmount && w' == w
    case RefundDone(o) =>
      && call.ConfirmRefund? && Owns(w, cfg, call.orderId) && w.orders[call.orderId].status == Delivered
      && o == w.orders[call.orderId].(status := Refunded) && w'.orders == w.orders[call.orderId := o]
      && w'.tickets == w.tickets
    case TicketMade(t) =>
      && call.Escalate? && t.id == call.newId && t.customerId == cfg.customer && t.subject == call.subject
      && t.status == Open && t.orderId == None
      && t.id !in w.tickets && w'.tickets == w.tickets[t.id := t] && w'.orders == w.orders
    case Raised(error) => w' == w && ErrorFits(s, cfg, call, error)
  }

  ghost predicate ErrorFits(s: Session, cfg: Config, call: Call, error: Error) {
    match error
    case OrderNotFound => exists id :: AsksFor(call, id) && id !in s.world.orders
    case Forbidden => exists id :: AsksFor(call, id) && id in s.world.orders && !Owns(s.world, cfg, id)
    case InvalidTransition =>
      && !call.GetOrderStatus?
      && exists id :: AsksFor(call, id) && Owns(s.world, cfg, id) && s.world.orders[id].status != Delivered
    case RefundNotConfirmed => call.ConfirmRefund? && (call.orderId !in s.pending || !cfg.refundConfirmed)
    case DuplicateTicket => call.Escalate? && call.newId in s.world.tickets
    case Fault => call.faultAt != None
  }

  /** Every reply of a tool fits the tables before and after the call. */
  lemma RepliesFit(s: Session, cfg: Config, call: Call)
    ensures var (s', reply) := Perform(s, cfg, call); ReplyFits(s, cfg, call, s', reply)
  {
    if !call.Escalate? { assert AsksFor(call, call.orderId); }
  }

  // ----- when a refund is reported -----

  /** The call reads or refunds this order of the customer, so that it becomes the last order read. */
  ghost predicate Touches(s: Session, cfg: Config, call: Call, id: Uuid) {
    match call
    case GetOrderStatus(k, f) => k == id && f != Some(0) && Owns(s.world, cfg, id)
    case ProposeRefund(k, f) => k == id && f != Some(0) && Owns(s.world, cfg, id)
    case ConfirmRefund(k, _) => k == id && Perform(s, cfg, call).1.RefundDone?
    case Escalate(_, _, _) => false
  }

  ghost predicate TouchesAny(s: Session, cfg: Config, call: Call) { exists id :: Touches(s, cfg, call, id) }

  /** Some call touched the order, and no later one touched any. */
  ghost predicate TouchedLast(s: Session, cfg: Config, calls: seq<Call>, id: Uuid) {
    calls != []
    && var before, last := After(s, cfg, calls[..|calls| - 1]), calls[|calls| - 1];
       Touches(before, cfg, last, id)
       || (!TouchesAny(before, cfg, last) && TouchedLast(s, cfg, calls[..|calls| - 1], id))
  }

  /** Some call refunded the order. */
  ghost predicate RefundedBy(s: Session, cfg: Config, calls: seq<Call>, id: Uuid) {
    calls != []
    && var before, last := After(s, cfg, calls[..|calls| - 1]), calls[|calls| - 1];
       (last.ConfirmRefund? && last.orderId == id && Perform(before, cfg, last).1.RefundDone?)
       || RefundedBy(s, cfg, calls[..|calls| - 1], id)
  }

  lemma TouchStep(s: Session, cfg: Config, call: Call, id: Uuid)
    requires Keyed(s.world.orders)
    ensures Touches(s, cfg, call, id) ==> TouchesAny(s, cfg, call)
    ensures var s' := Perform(s, cfg, call).0;
            && (Touches(s, cfg, call, id) ==> s'.lastOrder.Some? && s'.lastOrder.value.id == id)
            && (!TouchesAny(s, cfg, call) ==> s'.lastOrder == s.lastOrder)
            && (TouchesAny(s, cfg, call) && !Touches(s, cfg, call, id) ==>
                  s'.lastOrder.Some? && s'.lastOrder.value.id != id)
            && (id in s'.confirmed <==>
                  || id in s.confirmed
                  || (call.ConfirmRefund? && call.orderId == id && Perform(s, cfg, call).1.RefundDone?))
  {
    if !call.Escalate? { assert Touches(s, cfg, call, call.orderId) ==> TouchesAny(s, cfg, call); }
  }

  /** The refund of an order is reported exactly when a call refunded it and no other order was read since it was
      last read. */
  lemma {:induction false} ReportedIff(s: Session, cfg: Config, calls: seq<Call>, id: Uuid)
    requires IsStart(s)
    ensures var after := After(s, cfg, calls);
            && (id in after.confirmed <==> RefundedBy(s, cfg, calls, id))
            && ((after.lastOrder.Some? && after.lastOrder.value.id == id) <==> TouchedLast(s, cfg, calls, id))
            && (RefundResult(after, Some(id)).Some? <==>
                  RefundedBy(s, cfg, calls, id) && TouchedLast(s, cfg, calls, id))
  {
    if calls != [] {
      var front, last := calls[..|calls| - 1], calls[|calls| - 1];
      ReportedIff(s, cfg, front, id);
      KeyedAlways(s, cfg, front);
      TouchStep(After(s, cfg, front), cfg, last, id);
    }
  }

  // ----- what the log says -----

  /** The entry records a delivered order that was refunded. */
  ghost predicate RecordsRefund(m: Mutation, id: Uuid) {
    && m.resource == OrderResource && m.resourceId == id && m.field == StatusField
    && m.before == Text("delivered") && m.after == Text("refunded") && m.reasonCode == "refund_executed"
  }

  /** The entry records a whole new ticket. */
  ghost predicate RecordsTicket(m: Mutation, t: Ticket) {
    && m.resource == TicketResource && m.resourceId == t.id && m.field == CreatedField
    && m.before == Nothing && m.after == Row(t) && m.reasonCode == "ticket_created"
  }

  /** Every logged entry records a refund of the customer's order, or a ticket of the customer. */
  lemma LogEntriesMean(s: Session, cfg: Config, calls: seq<Call>, m: Mutation)
    requires IsStart(s) && m in After(s, cfg, calls).world.log
    ensures || (exists id :: RecordsRefund(m, id) && Owns(s.world, cfg, id) && s.world.orders[id].status == Delivered)
            || (exists t: Ticket :: RecordsTicket(m, t) && t.customerId == cfg.customer)
  {
    InvAlways(s, cfg, calls);
    assert Entry(After(s, cfg, calls), cfg, m);
    if IsRefund(m) {
      RefundedWereDelivered(s, cfg, calls, m);
      assert RecordsRefund(m, m.resourceId);
    } else {
      assert RecordsTicket(m, m.after.ticket);
    }
  }
}
