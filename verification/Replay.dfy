/** Running a reloaded bundle: the tools do to the renamed state what they do to the source state. */
module Replay {
  import opened Ordering
  import opened Simulation
  import opened Bundle
  import opened Evaluators
  import RefundAgent

  type Session = RefundAgent.Session
  type World = RefundAgent.World
  type Config = RefundAgent.Config
  type Call = RefundAgent.Call
  type Reply = RefundAgent.Reply

  function RenameConfig(f: Renaming, cfg: Config): Config { cfg.(customer := f(cfg.customer)) }

  function RenameCall(f: Renaming, c: Call): Call {
    match c
    case GetOrderStatus(id, at) => RefundAgent.GetOrderStatus(f(id), at)
    case ProposeRefund(id, at) => RefundAgent.ProposeRefund(f(id), at)
    case ConfirmRefund(id, at) => RefundAgent.ConfirmRefund(f(id), at)
    case Escalate(subject, id, at) => RefundAgent.Escalate(subject, f(id), at)
  }

  function RenameCalls(f: Renaming, cs: seq<Call>): seq<Call> {
    if cs == [] then [] else RenameCalls(f, cs[..|cs| - 1]) + [RenameCall(f, cs[|cs| - 1])]
  }

  function RenameReply(f: Renaming, r: Reply): Reply {
    match r
    case Found(o) => RefundAgent.Found(RenameOrder(f, o))
    case RefundDone(o) => RefundAgent.RefundDone(RenameOrder(f, o))
    case TicketMade(t) => RefundAgent.TicketMade(RenameTicket(f, t))
    case _ => r
  }

  // ----- a session and its renamed counterpart -----

  ghost predicate SameOrderAt(f: Renaming, o: map<Uuid, Order>, o': map<Uuid, Order>, id: Uuid) {
    if id in o then f(id) in o' && o'[f(id)] == RenameOrder(f, o[id]) else f(id) !in o'
  }

  ghost predicate SameOrders(f: Renaming, o: map<Uuid, Order>, o': map<Uuid, Order>) {
    forall id: Uuid :: SameOrderAt(f, o, o', id)
  }

  ghost predicate SameTicketAt(f: Renaming, t: map<Uuid, Ticket>, t': map<Uuid, Ticket>, id: Uuid) {
    if id in t then f(id) in t' && t'[f(id)] == RenameTicket(f, t[id]) else f(id) !in t'
  }

  ghost predicate SameTickets(f: Renaming, t: map<Uuid, Ticket>, t': map<Uuid, Ticket>) {
    forall id: Uuid :: SameTicketAt(f, t, t', id)
  }

  ghost predicate SamePendingAt(f: Renaming, p: map<Uuid, real>, p': map<Uuid, real>, id: Uuid) {
    if id in p then f(id) in p' && p'[f(id)] == p[id] else f(id) !in p'
  }

  ghost predicate SamePending(f: Renaming, p: map<Uuid, real>, p': map<Uuid, real>) {
    forall id: Uuid :: SamePendingAt(f, p, p', id)
  }

  /** Under the new names, the tables hold the same rows and the log tells the same story. */
  ghost predicate SameWorld(f: Renaming, w: World, w': World) {
    SameOrders(f, w.orders, w'.orders) && SameTickets(f, w.tickets, w'.tickets) && w'.log == RenameMutations(f, w.log)
  }

  ghost predicate Same(f: Renaming, s: Session, s': Session) {
    SameWorld(f, s.world, s'.world) && SamePending(f, s.pending, s'.pending)
  }

  lemma OwnedSame(f: Renaming, w: World, w': World, id: Uuid, customer: Uuid)
    requires Injective(f) && SameWorld(f, w, w')
    ensures RefundAgent.OwnedOrder(w', f(id), f(customer)) == RenameReply(f, RefundAgent.OwnedOrder(w, id, customer))
  {
    assert SameOrderAt(f, w.orders, w'.orders, id);
  }

  lemma OrdersUpdated(f: Renaming, o: map<Uuid, Order>, o': map<Uuid, Order>, id: Uuid, order: Order)
    requires Injective(f) && SameOrders(f, o, o')
    ensures SameOrders(f, o[id := order], o'[f(id) := RenameOrder(f, order)])
  {
    var u, u' := o[id := order], o'[f(id) := RenameOrder(f, order)];
    forall x: Uuid ensures SameOrderAt(f, u, u', x) {
      assert SameOrderAt(f, o, o', x);
    }
  }

  lemma TicketsUpdated(f: Renaming, t: map<Uuid, Ticket>, t': map<Uuid, Ticket>, ticket: Ticket)
    requires Injective(f) && SameTickets(f, t, t')
    ensures SameTickets(f, t[ticket.id := ticket], t'[f(ticket.id) := RenameTicket(f, ticket)])
  {
    var u, u' := t[ticket.id := ticket], t'[f(ticket.id) := RenameTicket(f, ticket)];
    forall x: Uuid ensures SameTicketAt(f, u, u', x) {
      assert SameTicketAt(f, t, t', x);
    }
  }

  lemma PendingAdded(f: Renaming, p: map<Uuid, real>, p': map<Uuid, real>, id: Uuid, amount: real)
    requires Injective(f) && SamePending(f, p, p')
    ensures SamePending(f, p[id := amount], p'[f(id) := amount])
  {
    var u, u' := p[id := amount], p'[f(id) := amount];
    forall x: Uuid ensures SamePendingAt(f, u, u', x) {
      assert SamePendingAt(f, p, p', x);
    }
  }

  lemma PendingDropped(f: Renaming, p: map<Uuid, real>, p': map<Uuid, real>, id: Uuid)
    requires Injective(f) && SamePending(f, p, p')
    ensures SamePending(f, p - {id}, p' - {f(id)})
  {
    var u, u' := p - {id}, p' - {f(id)};
    forall x: Uuid ensures SamePendingAt(f, u, u', x) {
      assert SamePendingAt(f, p, p', x);
    }
  }

  lemma {:induction false} LogExtended(f: Renaming, log: seq<Mutation>, m: Mutation)
    ensures RenameMutations(f, log + [m]) == RenameMutations(f, log) + [RenameMutation(f, m)]
    ensures |RenameMutations(f, log)| == |log|
  {
    if log == [] {
      assert [m][1..] == [];
    } else {
      LogExtended(f, log[1..], m);
      assert (log + [m])[0] == log[0] && (log + [m])[1..] == log[1..] + [m];
      Assoc([RenameMutation(f, log[0])], RenameMutations(f, log[1..]), [RenameMutation(f, m)]);
    }
  }

  // ----- each tool -----

  lemma GetSame(f: Renaming, s: Session, s': Session, cfg: Config, id: Uuid, at: Option<nat>)
    requires Injective(f) && Same(f, s, s')
    ensures var (t, r) := RefundAgent.PerformGet(s, cfg, id, at);
            var (t', r') := RefundAgent.PerformGet(s', RenameConfig(f, cfg), f(id), at);
            Same(f, t, t') && r' == RenameReply(f, r)
  {
    OwnedSame(f, s.world, s'.world, id, cfg.customer);
  }

  lemma ProposeSame(f: Renaming, s: Session, s': Session, cfg: Config, id: Uuid, at: Option<nat>)
    requires Injective(f) && Same(f, s, s')
    ensures var (t, r) := RefundAgent.PerformPropose(s, cfg, id, at);
            var (t', r') := RefundAgent.PerformPropose(s', RenameConfig(f, cfg), f(id), at);
            Same(f, t, t') && r' == RenameReply(f, r)
  {
    GetSame(f, s, s', cfg, id, at);
    var r := RefundAgent.PerformGet(s, cfg, id, at).1;
    if r.Found? {
      PendingAdded(f, s.pending, s'.pending, id, r.order.totalAmount);
    }
  }

  lemma RefundSame(f: Renaming, w: World, w': World, id: Uuid, customer: Uuid)
    requires Injective(f) && SameWorld(f, w, w')
    ensures SameWorld(f, RefundAgent.Refund(w, id, customer), RefundAgent.Refund(w', f(id), f(customer)))
  {
    assert SameOrderAt(f, w.orders, w'.orders, id);
    if RefundAgent.Refundable(w, id, customer) {
      var m := RefundAgent.RefundMutation(|w.log| + 1, id);
      LogExtended(f, w.log, m);
      OrdersUpdated(f, w.orders, w'.orders, id, w.orders[id].(status := Refunded));
    }
  }

  lemma ConfirmSame(f: Renaming, s: Session, s': Session, cfg: Config, id: Uuid, at: Option<nat>)
    requires Injective(f) && Same(f, s, s')
    ensures var (t, r) := RefundAgent.PerformConfirm(s, cfg, id, at);
            var (t', r') := RefundAgent.PerformConfirm(s', RenameConfig(f, cfg), f(id), at);
            Same(f, t, t') && r' == RenameReply(f, r)
  {
    assert SamePendingAt(f, s.pending, s'.pending, id);
    OwnedSame(f, s.world, s'.world, id, cfg.customer);
    RefundSame(f, s.world, s'.world, id, cfg.customer);
    PendingDropped(f, s.pending, s'.pending, id);
  }

  lemma EscalateSame(f: Renaming, s: Session, s': Session, cfg: Config, subject: string, id: Uuid, at: Option<nat>)
    requires Injective(f) && Same(f, s, s')
    ensures var (t, r) := RefundAgent.PerformEscalate(s, cfg, subject, id, at);
            var (t', r') := RefundAgent.PerformEscalate(s', RenameConfig(f, cfg), subject, f(id), at);
            Same(f, t, t') && r' == RenameReply(f, r)
  {
    var ticket := RefundAgent.NewTicket(id, cfg.customer, subject);
    assert SameTicketAt(f, s.world.tickets, s'.world.tickets, id);
    LogExtended(f, s.world.log, RefundAgent.TicketMutation(|s.world.log| + 1, ticket));
    TicketsUpdated(f, s.world.tickets, s'.world.tickets, ticket);
  }

  lemma CallSame(f: Renaming, s: Session, s': Session, cfg: Config, call: Call)
    requires Injective(f) && Same(f, s, s')
    ensures var (t, r) := RefundAgent.Perform(s, cfg, call);
            var (t', r') := RefundAgent.Perform(s', RenameConfig(f, cfg), RenameCall(f, call));
            Same(f, t, t') && r' == RenameReply(f, r)
  {
    match call {
      case GetOrderStatus(id, at) => GetSame(f, s, s', cfg, id, at);
      case ProposeRefund(id, at) => ProposeSame(f, s, s', cfg, id, at);
      case ConfirmRefund(id, at) => ConfirmSame(f, s, s', cfg, id, at);
      case Escalate(subject, id, at) => EscalateSame(f, s, s', cfg, subject, id, at);
    }
  }

  /** The tools respect renaming: renamed calls on renamed tables do the renamed work. */
  lemma {:induction false} RunsSame(f: Renaming, s: Session, s': Session, cfg: Config, calls: seq<Call>)
    requires Injective(f) && Same(f, s, s')
    ensures Same(f, RefundAgent.After(s, cfg, calls),
                 RefundAgent.After(s', RenameConfig(f, cfg), RenameCalls(f, calls)))
  {
    if calls != [] {
      var front, last := calls[..|calls| - 1], calls[|calls| - 1];
      RunsSame(f, s, s', cfg, front);
      var renamed := RenameCalls(f, calls);
      assert renamed[..|renamed| - 1] == RenameCalls(f, front);
      CallSame(f, RefundAgent.After(s, cfg, front), RefundAgent.After(s', RenameConfig(f, cfg), RenameCalls(f, front)),
               cfg, last);
    }
  }

  // ----- seeded tables -----

  lemma {:induction false} OrderTableSame(f: Renaming, orders: seq<Order>)
    requires Injective(f)
    ensures SameOrders(f, RefundAgent.OrderTable(orders), RefundAgent.OrderTable(RenameOrders(f, orders)))
  {
    if orders != [] {
      OrderTableSame(f, orders[1..]);
      assert RenameOrders(f, orders)[1..] == RenameOrders(f, orders[1..]);
      OrdersUpdated(f, RefundAgent.OrderTable(orders[1..]), RefundAgent.OrderTable(RenameOrders(f, orders[1..])),
                    orders[0].id, orders[0]);
    }
  }

  lemma {:induction false} TicketTableSame(f: Renaming, tickets: seq<Ticket>)
    requires Injective(f)
    ensures SameTickets(f, RefundAgent.TicketTable(tickets), RefundAgent.TicketTable(RenameTickets(f, tickets)))
  {
    if tickets != [] {
      TicketTableSame(f, tickets[1..]);
      assert RenameTickets(f, tickets)[1..] == RenameTickets(f, tickets[1..]);
      TicketsUpdated(f, RefundAgent.TicketTable(tickets[1..]), RefundAgent.TicketTable(RenameTickets(f, tickets[1..])),
                     tickets[0]);
    }
  }

  lemma SeededSame(f: Renaming, s: State)
    requires Injective(f)
    ensures Same(f, RefundAgent.SeededSession(s), RefundAgent.SeededSession(RenameState(f, s)))
  {
    OrderTableSame(f, s.orders);
    TicketTableSame(f, s.tickets);
  }

  // ----- identifiers that the run creates -----

  /** Two renamings agree on these ids. */
  ghost predicate Agree(f: Renaming, g: Renaming, ids: set<Uuid>) { forall x | x in ids :: f(x) == g(x) }

  function TicketOrders(tickets: seq<Ticket>): set<Uuid> {
    if tickets == [] then {}
    else (if tickets[0].orderId.Some? then {tickets[0].orderId.value} else {}) + TicketOrders(tickets[1..])
  }

  /** Every id that occurs in a state. */
  function StateIds(s: State): set<Uuid> {
    OrderIds(s.orders) + OrderCustomers(s.orders) + TicketIds(s.tickets) + TicketCustomers(s.tickets)
    + TicketOrders(s.tickets) + PolicyIds(s.policies)
  }

  lemma {:induction false} OrdersAgree(f: Renaming, g: Renaming, orders: seq<Order>)
    requires Agree(f, g, OrderIds(orders)) && Agree(f, g, OrderCustomers(orders))
    ensures RenameOrders(f, orders) == RenameOrders(g, orders)
  {
    if orders != [] {
      assert orders[0].id in OrderIds(orders) && orders[0].customerId in OrderCustomers(orders);
      OrdersAgree(f, g, orders[1..]);
    }
  }

  lemma {:induction false} TicketsAgree(f: Renaming, g: Renaming, tickets: seq<Ticket>)
    requires Agree(f, g, TicketIds(tickets)) && Agree(f, g, TicketCustomers(tickets))
    requires Agree(f, g, TicketOrders(tickets))
    ensures RenameTickets(f, tickets) == RenameTickets(g, tickets)
  {
    if tickets != [] {
      assert tickets[0].id in TicketIds(tickets) && tickets[0].customerId in TicketCustomers(tickets);
      assert tickets[0].orderId.Some? ==> tickets[0].orderId.value in TicketOrders(tickets);
      TicketsAgree(f, g, tickets[1..]);
    }
  }

  lemma {:induction false} PoliciesAgree(f: Renaming, g: Renaming, policies: seq<Policy>)
    requires Agree(f, g, PolicyIds(policies))
    ensures RenamePolicies(f, policies) == RenamePolicies(g, policies)
  {
    if policies != [] {
      assert policies[0].id in PolicyIds(policies);
      PoliciesAgree(f, g, policies[1..]);
    }
  }

  lemma StatesAgree(f: Renaming, g: Renaming, s: State)
    requires Agree(f, g, StateIds(s))
    ensures RenameState(f, s) == RenameState(g, s)
  {
    OrdersAgree(f, g, s.orders);
    TicketsAgree(f, g, s.tickets);
    PoliciesAgree(f, g, s.policies);
  }

  // ----- from a scenario to its bundle and back -----

  /** The log of a run on a state. */
  function LogOf(s: State, cfg: Config, calls: seq<Call>): seq<Mutation> {
    RefundAgent.After(RefundAgent.SeededSession(s), cfg, calls).world.log
  }

  /** The bundle renames with `synth`; the replay may create its tickets under any new names `f`. */
  ghost predicate Replaying(f: Renaming, synth: Renaming, s: State, cfg: Config, b: Behavior) {
    && Injective(f)
    && Agree(f, synth, StateIds(s)) && f(cfg.customer) == synth(cfg.customer)
    && Agree(f, synth, TransitionIds(b.required + b.permitted))
  }

  /** The reloaded state, run with the renamed calls, writes the renamed log. */
  lemma BundleRepeatsRun(f: Renaming, synth: Renaming, s: State, cfg: Config, calls: seq<Call>, b: Behavior)
    requires Replaying(f, synth, s, cfg, b)
    ensures var loaded := Load(SeedsOf(Extractors(s, synth)));
            && loaded.Some?
            && LogOf(loaded.value, RenameConfig(synth, cfg), RenameCalls(f, calls))
               == RenameMutations(f, LogOf(s, cfg, calls))
  {
    ReloadIsRename(s, synth);
    StatesAgree(f, synth, s);
    SeededSame(f, s);
    RunsSame(f, RefundAgent.SeededSession(s), RefundAgent.SeededSession(RenameState(f, s)), cfg, calls);
  }

  /** And the compiled expectation judges that log as the source expectation judges the source run. */
  lemma BundleKeepsVerdict(f: Renaming, synth: Renaming, s: State, cfg: Config, calls: seq<Call>, b: Behavior)
    requires Replaying(f, synth, s, cfg, b)
    ensures var loaded := Load(SeedsOf(Extractors(s, synth)));
            && loaded.Some?
            && (PassesBoth(LogOf(loaded.value, RenameConfig(synth, cfg), RenameCalls(f, calls)), SafeBehavior(synth, b))
                <==> PassesBoth(LogOf(s, cfg, calls), b))
  {
    BundleRepeatsRun(f, synth, s, cfg, calls, b);
    VerdictsKept(f, synth, LogOf(s, cfg, calls), b);
  }
}
