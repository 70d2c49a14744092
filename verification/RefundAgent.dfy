/** The tools of one authenticated customer over an observed repository. */
module RefundAgent {
  import opened Ordering
  import opened Simulation

  // ----- specification -----

  /** The database and the log of accepted writes. */
  datatype World = World(orders: map<Uuid, Order>, tickets: map<Uuid, Ticket>, log: seq<Mutation>)

  /** Who is bound to the tools, and whether the trusted request confirmed a refund. */
  datatype Config = Config(customer: Uuid, refundConfirmed: bool)

  /** What the tools remember: pending proposals by order, confirmed orders, and the last order read. */
  datatype Session = Session(world: World, pending: map<Uuid, real>, confirmed: set<Uuid>, lastOrder: Option<Order>)

  /** `faultAt` is the repository call, counted from zero within the tool call, that raises. */
  datatype Call =
    | GetOrderStatus(orderId: Uuid, faultAt: Option<nat>)
    | ProposeRefund(orderId: Uuid, faultAt: Option<nat>)
    | ConfirmRefund(orderId: Uuid, faultAt: Option<nat>)
    | Escalate(subject: string, newId: Uuid, faultAt: Option<nat>)

  datatype Error = OrderNotFound | Forbidden | InvalidTransition | RefundNotConfirmed | Fault | DuplicateTicket

  datatype Reply = Found(order: Order) | ProposalMade(amount: real) | RefundDone(order: Order)
                 | TicketMade(ticket: Ticket) | Raised(error: Error)

  function RefundMutation(n: nat, id: Uuid): Mutation {
    Mutation(n, OrderResource, id, StatusField, Text(OrderStatusText(Delivered)), Text(OrderStatusText(Refunded)),
             REFUND_EXECUTED)
  }

  function TicketMutation(n: nat, t: Ticket): Mutation {
    Mutation(n, TicketResource, t.id, CreatedField, Nothing, Row(t), TICKET_CREATED)
  }

  predicate Refundable(w: World, id: Uuid, customer: Uuid) {
    id in w.orders && w.orders[id].customerId == customer && w.orders[id].status == Delivered
  }

  /** The atomic refund of a delivered order of the customer. */
  function Refund(w: World, id: Uuid, customer: Uuid): World {
    if Refundable(w, id, customer) then
      w.(orders := w.orders[id := w.orders[id].(status := Refunded)], log := w.log + [RefundMutation(|w.log| + 1, id)])
    else w
  }

  function NewTicket(id: Uuid, customer: Uuid, subject: string): Ticket { Ticket(id, customer, None, subject, Open) }

  function AddTicket(w: World, t: Ticket): World {
    w.(tickets := w.tickets[t.id := t], log := w.log + [TicketMutation(|w.log| + 1, t)])
  }

  /** The ownership check of the support service. */
  function OwnedOrder(w: World, id: Uuid, customer: Uuid): Reply {
    if id !in w.orders then Raised(OrderNotFound)
    else if w.orders[id].customerId != customer then Raised(Forbidden)
    else Found(w.orders[id])
  }

  function PerformGet(s: Session, cfg: Config, id: Uuid, faultAt: Option<nat>): (Session, Reply) {
    var r := if faultAt == Some(0) then Raised(Fault) else OwnedOrder(s.world, id, cfg.customer);
    (if r.Found? then s.(lastOrder := Some(r.order)) else s, r)
  }

  function PerformPropose(s: Session, cfg: Config, id: Uuid, faultAt: Option<nat>): (Session, Reply) {
    var (s', r) := PerformGet(s, cfg, id, faultAt);
    if r.Raised? then (s', r)
    else if r.order.status != Delivered then (s', Raised(InvalidTransition))
    else (s'.(pending := s'.pending[id := r.order.totalAmount]), ProposalMade(r.order.totalAmount))
  }

  /** A refund runs only with the trusted flag and a pending proposal; a raised error consumes nothing. */
  function PerformConfirm(s: Session, cfg: Config, id: Uuid, faultAt: Option<nat>): (Session, Reply) {
    if id !in s.pending || !cfg.refundConfirmed then (s, Raised(RefundNotConfirmed))
    else if faultAt == Some(0) then (s, Raised(Fault))
    else
      var r := OwnedOrder(s.world, id, cfg.customer);
      if r.Raised? then (s, r)
      else if r.order.status != Delivered then (s, Raised(InvalidTransition))
      else if faultAt == Some(1) then (s, Raised(Fault))
      else
        var w := Refund(s.world, id, cfg.customer);
        var order := r.order.(status := Refunded);
        (Session(w, s.pending - {id}, s.confirmed + {id}, Some(order)), RefundDone(order))
  }

  function PerformEscalate(s: Session, cfg: Config, subject: string, id: Uuid, faultAt: Option<nat>): (Session, Reply) {
    if faultAt == Some(0) then (s, Raised(Fault))
    else if id in s.world.tickets then (s, Raised(DuplicateTicket))
    else
      var t := NewTicket(id, cfg.customer, subject);
      (s.(world := AddTicket(s.world, t)), TicketMade(t))
  }

  function Perform(s: Session, cfg: Config, call: Call): (Session, Reply) {
    match call
    case GetOrderStatus(id, f) => PerformGet(s, cfg, id, f)
    case ProposeRefund(id, f) => PerformPropose(s, cfg, id, f)
    case ConfirmRefund(id, f) => PerformConfirm(s, cfg, id, f)
    case Escalate(subject, id, f) => PerformEscalate(s, cfg, subject, id, f)
  }

  function After(s: Session, cfg: Config, calls: seq<Call>): Session {
    if calls == [] then s else Perform(After(s, cfg, calls[..|calls| - 1]), cfg, calls[|calls| - 1]).0
  }

  // ----- the objects -----

  /** The support tables. */
  class SupportRepository {
    var orders: map<Uuid, Order>
    var tickets: map<Uuid, Ticket>

    constructor (orders: map<Uuid, Order>, tickets: map<Uuid, Ticket>)
      ensures this.orders == orders && this.tickets == tickets
    {
      this.orders, this.tickets := orders, tickets;
    }

    method GetOrder(id: Uuid) returns (r: Option<Order>)
      ensures r == if id in orders then Some(orders[id]) else None
    {
      r := if id in orders then Some(orders[id]) else None;
    }

    method RefundOrderIfDelivered(id: Uuid, customer: Uuid) returns (r: Option<Order>)
      modifies this`orders
      ensures r.Some? <==> id in old(orders) && old(orders)[id].customerId == customer
                           && old(orders)[id].status == Delivered
      ensures r.Some? ==> r.value == old(orders)[id].(status := Refunded) && orders == old(orders)[id := r.value]
      ensures r.None? ==> orders == old(orders)
    {
      if id in orders && orders[id].customerId == customer && orders[id].status == Delivered {
        orders := orders[id := orders[id].(status := Refunded)];
        return Some(orders[id]);
      }
      return None;
    }

    method CreateTicket(t: Ticket) returns (ok: bool)
      modifies this`tickets
      ensures ok <==> t.id !in old(tickets)
      ensures tickets == if ok then old(tickets)[t.id := t] else old(tickets)
    {
      ok := t.id !in tickets;
      if ok {
        tickets := tickets[t.id := t];
      }
    }
  }

  /** Delegates to the tables and reports each accepted write. */
  class ObservedRepository {
    const repository: SupportRepository
    var mutations: seq<Mutation>
    var sequence: nat

    ghost predicate Valid() reads this { sequence == |mutations| }

    ghost function Contents(): World reads this, repository {
      World(repository.orders, repository.tickets, mutations)
    }

    constructor (repository: SupportRepository)
      ensures Valid() && this.repository == repository && mutations == []
    {
      this.repository := repository;
      mutations, sequence := [], 0;
    }

    method GetOrder(id: Uuid) returns (r: Option<Order>)
      ensures r == if id in repository.orders then Some(repository.orders[id]) else None
    {
      r := repository.GetOrder(id);
    }

    method Record(resource: Resource, id: Uuid, field: ChangedField, before: Value, after: Value, reason: string)
      requires Valid()
      modifies this
      ensures Valid()
      ensures mutations == old(mutations) + [Mutation(|old(mutations)| + 1, resource, id, field, before, after, reason)]
    {
      sequence := sequence + 1;
      mutations := mutations + [Mutation(sequence, resource, id, field, before, after, reason)];
    }

    method RefundOrderIfDelivered(id: Uuid, customer: Uuid) returns (r: Option<Order>)
      requires Valid() && Keyed(repository.orders)
      modifies this, repository
      ensures Valid() && Contents() == Refund(old(Contents()), id, customer)
      ensures r == if Refundable(old(Contents()), id, customer) then Some(repository.orders[id]) else None
    {
      var before := repository.GetOrder(id);
      r := repository.RefundOrderIfDelivered(id, customer);
      if before.Some? && r.Some? && before.value.status != r.value.status {
        Record(OrderResource, r.value.id, StatusField, Text(OrderStatusText(before.value.status)),
               Text(OrderStatusText(r.value.status)), REFUND_EXECUTED);
      }
    }

    method CreateTicket(t: Ticket) returns (ok: bool)
      requires Valid()
      modifies this, repository
      ensures Valid() && ok == (t.id !in old(repository.tickets))
      ensures Contents() == if ok then AddTicket(old(Contents()), t) else old(Contents())
    {
      ok := repository.CreateTicket(t);
      if ok {
        Record(TicketResource, t.id, CreatedField, Nothing, Row(t), TICKET_CREATED);
      }
    }

    method ClearMutations()
      modifies this
      ensures Valid() && mutations == []
    {
      mutations, sequence := [], 0;
    }
  }

  ghost predicate Keyed(orders: map<Uuid, Order>) { forall k | k in orders :: orders[k].id == k }

  class SupportAgent {
    const observed: ObservedRepository
    const config: Config
    var pending: map<Uuid, real>
    var confirmed: set<Uuid>
    var lastOrder: Option<Order>

    ghost predicate Valid() reads observed, observed.repository {
      observed.Valid() && Keyed(observed.repository.orders)
    }

    ghost function State(): Session reads this, observed, observed.repository {
      Session(observed.Contents(), pending, confirmed, lastOrder)
    }

    constructor (observed: ObservedRepository, config: Config)
      ensures this.observed == observed && this.config == config
      ensures pending == map[] && confirmed == {} && lastOrder == None
    {
      this.observed, this.config := observed, config;
      pending, confirmed, lastOrder := map[], {}, None;
    }

    method ReadOwned(id: Uuid) returns (r: Reply)
      ensures r == OwnedOrder(observed.Contents(), id, config.customer)
    {
      var order := observed.GetOrder(id);
      if order.None? {
        return Raised(OrderNotFound);
      }
      if order.value.customerId != config.customer {
        return Raised(Forbidden);
      }
      r := Found(order.value);
    }

    method ToolGetOrderStatus(id: Uuid, faultAt: Option<nat>) returns (r: Reply)
      modifies this`lastOrder
      ensures (State(), r) == PerformGet(old(State()), config, id, faultAt)
    {
      if faultAt == Some(0) {
        return Raised(Fault);
      }
      r := ReadOwned(id);
      if r.Found? {
        lastOrder := Some(r.order);
      }
    }

    method ToolProposeRefund(id: Uuid, faultAt: Option<nat>) returns (r: Reply)
      requires Valid()
      modifies this
      ensures (State(), r) == PerformPropose(old(State()), config, id, faultAt)
    {
      r := ToolGetOrderStatus(id, faultAt);
      if r.Raised? {
        return;
      }
      var order := r.order;
      if order.status != Delivered {
        return Raised(InvalidTransition);
      }
      pending := pending[order.id := order.totalAmount];
      r := ProposalMade(order.totalAmount);
    }

    /** The service's refund: owned, delivered, then the atomic update. */
    method RequestRefund(id: Uuid, faultAt: Option<nat>) returns (r: Reply)
      requires Valid()
      modifies observed, observed.repository
      ensures Valid()
      ensures var owned := OwnedOrder(old(observed.Contents()), id, config.customer);
              if faultAt == Some(0) then r == Raised(Fault) && observed.Contents() == old(observed.Contents())
              else if owned.Raised? then r == owned && observed.Contents() == old(observed.Contents())
              else if owned.order.status != Delivered then
                r == Raised(InvalidTransition) && observed.Contents() == old(observed.Contents())
              else if faultAt == Some(1) then r == Raised(Fault) && observed.Contents() == old(observed.Contents())
              else
                && r == RefundDone(owned.order.(status := Refunded))
                && observed.Contents() == Refund(old(observed.Contents()), id, config.customer)
    {
      if faultAt == Some(0) {
        return Raised(Fault);
      }
      r := ReadOwned(id);
      if r.Raised? {
        return;
      }
      if r.order.status != Delivered {
        return Raised(InvalidTransition);
      }
      if faultAt == Some(1) {
        return Raised(Fault);
      }
      var saved := observed.RefundOrderIfDelivered(id, config.customer);
      match saved {
        case Some(order) =>
          r := RefundDone(order);
        case None =>
          r := ReadOwned(id);
          if r.Found? {
            r := Raised(InvalidTransition);
          }
      }
    }

    method ToolConfirmRefund(id: Uuid, faultAt: Option<nat>) returns (r: Reply)
      requires Valid()
      modifies this, observed, observed.repository
      ensures Valid() && (State(), r) == PerformConfirm(old(State()), config, id, faultAt)
    {
      if id !in pending || !config.refundConfirmed {
        return Raised(RefundNotConfirmed);
      }
      r := RequestRefund(id, faultAt);
      if r.Raised? {
        return;
      }
      pending := pending - {id};
      confirmed := confirmed + {id};
      lastOrder := Some(r.order);
    }

    method ToolEscalate(subject: string, newId: Uuid, faultAt: Option<nat>) returns (r: Reply)
      requires Valid()
      modifies observed, observed.repository
      ensures Valid() && (State(), r) == PerformEscalate(old(State()), config, subject, newId, faultAt)
    {
      if faultAt == Some(0) {
        return Raised(Fault);
      }
      var t := NewTicket(newId, config.customer, subject);
      var ok := observed.CreateTicket(t);
      r := if ok then TicketMade(t) else Raised(DuplicateTicket);
    }

    method Handle(call: Call) returns (r: Reply)
      requires Valid()
      modifies this, observed, observed.repository
      ensures Valid() && (State(), r) == Perform(old(State()), config, call)
    {
      match call {
        case GetOrderStatus(id, f) => r := ToolGetOrderStatus(id, f);
        case ProposeRefund(id, f) => r := ToolProposeRefund(id, f);
        case ConfirmRefund(id, f) => r := ToolConfirmRefund(id, f);
        case Escalate(subject, id, f) => r := ToolEscalate(subject, id, f);
      }
    }

    /** The confirmed refund of an order, while it is the last order read. */
    method ConfirmedRefundFor(id: Option<Uuid>) returns (r: Option<Order>)
      ensures r == RefundResult(State(), id)
    {
      if id.None? || id.value !in confirmed {
        return None;
      }
      r := if lastOrder.Some? && lastOrder.value.id == id.value then lastOrder else None;
    }
  }

  // ----- seeding and resetting -----

  function OrderTable(orders: seq<Order>): map<Uuid, Order> {
    if orders == [] then map[] else OrderTable(orders[1..])[orders[0].id := orders[0]]
  }

  function TicketTable(tickets: seq<Ticket>): map<Uuid, Ticket> {
    if tickets == [] then map[] else TicketTable(tickets[1..])[tickets[0].id := tickets[0]]
  }

  /** The session right after the tables were filled from a scenario's state. */
  function SeededSession(s: State): Session {
    Session(World(OrderTable(s.orders), TicketTable(s.tickets), []), map[], {}, None)
  }

  lemma {:induction false} OrderTableKeyed(orders: seq<Order>)
    ensures Keyed(OrderTable(orders))
  {
    if orders != [] { OrderTableKeyed(orders[1..]); }
  }

  /** The seeded tables hold the rows of the state under their ids, and nothing else. */
  lemma {:induction false} TablesHoldRows(orders: seq<Order>, tickets: seq<Ticket>, id: Uuid)
    requires OrdersFit(orders) && TicketsFit(tickets)
    ensures id in OrderTable(orders) <==> exists i :: 0 <= i < |orders| && orders[i].id == id
    ensures forall i | 0 <= i < |orders| && orders[i].id == id ::
              id in OrderTable(orders) && OrderTable(orders)[id] == orders[i]
    ensures id in TicketTable(tickets) <==> exists i :: 0 <= i < |tickets| && tickets[i].id == id
    ensures forall i | 0 <= i < |tickets| && tickets[i].id == id ::
              id in TicketTable(tickets) && TicketTable(tickets)[id] == tickets[i]
    decreases |orders|, |tickets|
  {
    if orders != [] {
      var rest := orders[1..];
      assert forall i | 0 <= i < |rest| :: rest[i] == orders[i + 1];
      TablesHoldRows(rest, tickets, id);
      if i :| 0 <= i < |rest| && rest[i].id == id { assert orders[i + 1].id == id; }
      forall i | 0 <= i < |orders| && orders[i].id == id
        ensures id in OrderTable(orders) && OrderTable(orders)[id] == orders[i]
      {
        if i > 0 { assert rest[i - 1] == orders[i]; }
      }
    } else if tickets != [] {
      var rest := tickets[1..];
      assert forall i | 0 <= i < |rest| :: rest[i] == tickets[i + 1];
      TablesHoldRows(orders, rest, id);
      if i :| 0 <= i < |rest| && rest[i].id == id { assert tickets[i + 1].id == id; }
      forall i | 0 <= i < |tickets| && tickets[i].id == id
        ensures id in TicketTable(tickets) && TicketTable(tickets)[id] == tickets[i]
      {
        if i > 0 { assert rest[i - 1] == tickets[i]; }
      }
    }
  }

  class PostgresSandbox {
    const repository: SupportRepository
    const observed: ObservedRepository
    const config: Config
    var initial: Option<State>
    var agent: Option<SupportAgent>

    ghost predicate Valid() reads this, observed, repository {
      && observed.repository == repository && observed.Valid() && Keyed(repository.orders)
      && (agent.Some? ==> agent.value.observed == observed && agent.value.config == config)
    }

    constructor (config: Config)
      ensures Valid() && initial == None && agent == None && this.config == config
      ensures fresh(repository) && fresh(observed)
    {
      var tables := new SupportRepository(map[], map[]);
      var wrapper := new ObservedRepository(tables);
      repository, observed := tables, wrapper;
      this.config := config;
      initial, agent := None, None;
    }

    /** Replaces the tables, clears the log and binds new tools; the database refuses a state that violates a key,
        a reference or a check. */
    method ReplaceDatabaseState(s: State) returns (ok: bool)
      requires Valid()
      modifies this`agent, repository, observed
      ensures Valid() && ok == SoundReferences(s)
      ensures ok ==> agent.Some? && fresh(agent.value) && agent.value.State() == SeededSession(s)
      ensures !ok ==> agent == old(agent) && observed.Contents() == old(observed.Contents())
    {
      ok := SoundReferences(s);
      if !ok {
        return;
      }
      OrderTableKeyed(s.orders);
      repository.orders := OrderTable(s.orders);
      repository.tickets := TicketTable(s.tickets);
      observed.ClearMutations();
      var bound := new SupportAgent(observed, config);
      agent := Some(bound);
    }

    /** The state is remembered even when the database refuses it. */
    method Seed(s: State) returns (ok: bool)
      requires Valid()
      modifies this, repository, observed
      ensures Valid() && ok == SoundReferences(s) && initial == Some(s)
      ensures ok ==> agent.Some? && fresh(agent.value) && agent.value.State() == SeededSession(s)
      ensures !ok ==> agent == old(agent) && observed.Contents() == old(observed.Contents())
    {
      initial := Some(s);
      ok := ReplaceDatabaseState(s);
    }

    /** Whatever was called before, the tools start over on exactly the seeded state. */
    method Reset() returns (ok: bool)
      requires Valid()
      modifies this`agent, repository, observed
      ensures Valid() && ok == (initial.None? || SoundReferences(initial.value))
      ensures initial.None? || !ok ==> agent == old(agent) && observed.Contents() == old(observed.Contents())
      ensures initial.Some? && ok ==>
                agent.Some? && fresh(agent.value) && agent.value.State() == SeededSession(initial.value)
    {
      ok := true;
      if initial.Some? {
        ok := ReplaceDatabaseState(initial.value);
      }
    }

    /** Nothing can be called before the sandbox is seeded. */
    method CallTool(call: Call) returns (r: Option<Reply>)
      requires Valid()
      modifies repository, observed, if agent.Some? then {agent.value} else {}
      ensures Valid() && (r.Some? <==> agent.Some?)
      ensures agent.None? ==> observed.Contents() == old(observed.Contents())
      ensures agent.Some? ==> (agent.value.State(), r.value) == Perform(old(agent.value.State()), config, call)
    {
      if agent.None? {
        return None;
      }
      var reply := agent.value.Handle(call);
      r := Some(reply);
    }
  }

  function RefundResult(s: Session, id: Option<Uuid>): Option<Order> {
    if id.Some? && id.value in s.confirmed && s.lastOrder.Some? && s.lastOrder.value.id == id.value then s.lastOrder
    else None
  }
}
