/** The disposable business state of one scenario, the changes a run reports, and renaming of ids. */
module Simulation {
  import opened Ordering

  datatype OrderStatus = Pending | Processing | Shipped | Delivered | Cancelled | Refunded

  datatype TicketStatus = Open | InProgress | Resolved | Closed

  datatype Order = Order(id: Uuid, customerId: Uuid, status: OrderStatus, totalAmount: real)

  datatype Ticket = Ticket(id: Uuid, customerId: Uuid, orderId: Option<Uuid>, subject: string, status: TicketStatus)

  datatype Policy = Policy(id: Uuid, slug: string, version: string, title: string, content: string, contentHash: string)

  datatype State = State(orders: seq<Order>, tickets: seq<Ticket>, policies: seq<Policy>)

  // ----- mutations -----

  datatype Resource = CustomerResource | OrderResource | TicketResource | PolicyResource

  /** What changed: a status, or the creation of the row. */
  datatype ChangedField = StatusField | CreatedField | OtherField(name: string)

  /** A reported value: nothing, a status text, or the whole created row. */
  datatype Value = Nothing | Text(text: string) | Row(ticket: Ticket)

  datatype Mutation = Mutation(sequence: nat, resource: Resource, resourceId: Uuid, field: ChangedField,
                               before: Value, after: Value, reasonCode: string)

  const REFUND_EXECUTED := "refund_executed"
  const TICKET_CREATED := "ticket_created"

  // ----- status texts -----

  function OrderStatusText(s: OrderStatus): string {
    match s
    case Pending => "pending"
    case Processing => "processing"
    case Shipped => "shipped"
    case Delivered => "delivered"
    case Cancelled => "cancelled"
    case Refunded => "refunded"
  }

  function ParseOrderStatus(text: string): Option<OrderStatus> {
    if text == "pending" then Some(Pending)
    else if text == "processing" then Some(Processing)
    else if text == "shipped" then Some(Shipped)
    else if text == "delivered" then Some(Delivered)
    else if text == "cancelled" then Some(Cancelled)
    else if text == "refunded" then Some(Refunded)
    else None
  }

  lemma StatusTextRoundTrip(s: OrderStatus)
    ensures ParseOrderStatus(OrderStatusText(s)) == Some(s)
  {
  }

  // ----- renaming -----

  type Renaming = Uuid -> Uuid

  ghost predicate Injective(f: Renaming) {
    forall x: Uuid, y: Uuid | f(x) == f(y) :: x == y
  }

  ghost predicate InjectiveOn(f: Renaming, ids: set<Uuid>) {
    forall x, y | x in ids && y in ids && f(x) == f(y) :: x == y
  }

  function RenameOption(f: Renaming, id: Option<Uuid>): Option<Uuid> {
    match id
    case None => None
    case Some(x) => Some(f(x))
  }

  function RenameOrder(f: Renaming, o: Order): Order { o.(id := f(o.id), customerId := f(o.customerId)) }

  function RenameTicket(f: Renaming, t: Ticket): Ticket {
    t.(id := f(t.id), customerId := f(t.customerId), orderId := RenameOption(f, t.orderId))
  }

  function RenamePolicy(f: Renaming, p: Policy): Policy { p.(id := f(p.id)) }

  function RenameOrders(f: Renaming, orders: seq<Order>): seq<Order> {
    if orders == [] then [] else [RenameOrder(f, orders[0])] + RenameOrders(f, orders[1..])
  }

  function RenameTickets(f: Renaming, tickets: seq<Ticket>): seq<Ticket> {
    if tickets == [] then [] else [RenameTicket(f, tickets[0])] + RenameTickets(f, tickets[1..])
  }

  function RenamePolicies(f: Renaming, policies: seq<Policy>): seq<Policy> {
    if policies == [] then [] else [RenamePolicy(f, policies[0])] + RenamePolicies(f, policies[1..])
  }

  function RenameState(f: Renaming, s: State): State {
    State(RenameOrders(f, s.orders), RenameTickets(f, s.tickets), RenamePolicies(f, s.policies))
  }

  function RenameValue(f: Renaming, v: Value): Value { if v.Row? then Row(RenameTicket(f, v.ticket)) else v }

  function RenameMutation(f: Renaming, m: Mutation): Mutation {
    m.(resourceId := f(m.resourceId), before := RenameValue(f, m.before), after := RenameValue(f, m.after))
  }

  function RenameMutations(f: Renaming, ms: seq<Mutation>): seq<Mutation> {
    if ms == [] then [] else [RenameMutation(f, ms[0])] + RenameMutations(f, ms[1..])
  }

  // ----- identifiers of a state -----

  function OrderIds(orders: seq<Order>): set<Uuid> {
    if orders == [] then {} else {orders[0].id} + OrderIds(orders[1..])
  }

  function OrderCustomers(orders: seq<Order>): set<Uuid> {
    if orders == [] then {} else {orders[0].customerId} + OrderCustomers(orders[1..])
  }

  function TicketCustomers(tickets: seq<Ticket>): set<Uuid> {
    if tickets == [] then {} else {tickets[0].customerId} + TicketCustomers(tickets[1..])
  }

  function CustomerIds(s: State): set<Uuid> { OrderCustomers(s.orders) + TicketCustomers(s.tickets) }

  function Image(f: Renaming, ids: set<Uuid>): set<Uuid> { set x | x in ids :: f(x) }

  /** What the tables check: distinct ids, no negative amount, tickets that name existing orders, and no two
      policies with one slug and version. */
  predicate SoundReferences(s: State) {
    && DistinctOrders(s.orders) && DistinctTickets(s.tickets) && TicketsResolve(s.tickets, OrderIds(s.orders))
    && DistinctPolicies(s.policies)
  }

  predicate DistinctOrders(orders: seq<Order>) {
    orders == []
    || (orders[0].id !in OrderIds(orders[1..]) && orders[0].totalAmount >= 0.0 && DistinctOrders(orders[1..]))
  }

  function PolicyIds(policies: seq<Policy>): set<Uuid> {
    if policies == [] then {} else {policies[0].id} + PolicyIds(policies[1..])
  }

  function PolicyKeys(policies: seq<Policy>): set<(string, string)> {
    if policies == [] then {} else {(policies[0].slug, policies[0].version)} + PolicyKeys(policies[1..])
  }

  predicate DistinctPolicies(policies: seq<Policy>) {
    policies == []
    || (&& policies[0].id !in PolicyIds(policies[1..])
        && (policies[0].slug, policies[0].version) !in PolicyKeys(policies[1..])
        && DistinctPolicies(policies[1..]))
  }

  function TicketIds(tickets: seq<Ticket>): set<Uuid> {
    if tickets == [] then {} else {tickets[0].id} + TicketIds(tickets[1..])
  }

  predicate DistinctTickets(tickets: seq<Ticket>) {
    tickets == [] || (tickets[0].id !in TicketIds(tickets[1..]) && DistinctTickets(tickets[1..]))
  }

  predicate TicketsResolve(tickets: seq<Ticket>, orderIds: set<Uuid>) {
    tickets == []
    || ((tickets[0].orderId.Some? ==> tickets[0].orderId.value in orderIds)
        && TicketsResolve(tickets[1..], orderIds))
  }

  lemma {:induction false} OrderIdsRenamed(f: Renaming, orders: seq<Order>)
    ensures OrderIds(RenameOrders(f, orders)) == Image(f, OrderIds(orders))
    ensures OrderCustomers(RenameOrders(f, orders)) == Image(f, OrderCustomers(orders))
  {
    if orders == [] {
    } else {
      OrderIdsRenamed(f, orders[1..]);
      assert RenameOrders(f, orders)[1..] == RenameOrders(f, orders[1..]);
    }
  }

  lemma {:induction false} TicketCustomersRenamed(f: Renaming, tickets: seq<Ticket>)
    ensures TicketCustomers(RenameTickets(f, tickets)) == Image(f, TicketCustomers(tickets))
  {
    if tickets == [] {
    } else {
      TicketCustomersRenamed(f, tickets[1..]);
      assert RenameTickets(f, tickets)[1..] == RenameTickets(f, tickets[1..]);
    }
  }

  lemma {:induction false} DistinctOrdersRenamed(f: Renaming, orders: seq<Order>)
    requires Injective(f)
    ensures DistinctOrders(RenameOrders(f, orders)) <==> DistinctOrders(orders)
  {
    if orders == [] {
    } else {
      DistinctOrdersRenamed(f, orders[1..]);
      OrderIdsRenamed(f, orders[1..]);
      assert RenameOrders(f, orders)[1..] == RenameOrders(f, orders[1..]);
    }
  }

  lemma {:induction false} DistinctTicketsRenamed(f: Renaming, tickets: seq<Ticket>)
    requires Injective(f)
    ensures TicketIds(RenameTickets(f, tickets)) == Image(f, TicketIds(tickets))
    ensures DistinctTickets(RenameTickets(f, tickets)) <==> DistinctTickets(tickets)
  {
    if tickets == [] {
    } else {
      DistinctTicketsRenamed(f, tickets[1..]);
      assert RenameTickets(f, tickets)[1..] == RenameTickets(f, tickets[1..]);
    }
  }

  lemma {:induction false} TicketsResolveRenamed(f: Renaming, tickets: seq<Ticket>, ids: set<Uuid>)
    requires Injective(f)
    ensures TicketsResolve(RenameTickets(f, tickets), Image(f, ids)) <==> TicketsResolve(tickets, ids)
  {
    if tickets == [] {
    } else {
      TicketsResolveRenamed(f, tickets[1..], ids);
      assert RenameTickets(f, tickets)[1..] == RenameTickets(f, tickets[1..]);
    }
  }

  lemma {:induction false} DistinctPoliciesRenamed(f: Renaming, policies: seq<Policy>)
    requires Injective(f)
    ensures PolicyIds(RenamePolicies(f, policies)) == Image(f, PolicyIds(policies))
    ensures PolicyKeys(RenamePolicies(f, policies)) == PolicyKeys(policies)
    ensures DistinctPolicies(RenamePolicies(f, policies)) <==> DistinctPolicies(policies)
  {
    if policies == [] {
    } else {
      DistinctPoliciesRenamed(f, policies[1..]);
      assert RenamePolicies(f, policies)[1..] == RenamePolicies(f, policies[1..]);
    }
  }

  /** An injective renaming keeps every relationship, and creates none. */
  lemma RenamingKeepsReferences(f: Renaming, s: State)
    requires Injective(f)
    ensures SoundReferences(RenameState(f, s)) <==> SoundReferences(s)
    ensures CustomerIds(RenameState(f, s)) == Image(f, CustomerIds(s))
  {
    DistinctOrdersRenamed(f, s.orders);
    DistinctTicketsRenamed(f, s.tickets);
    DistinctPoliciesRenamed(f, s.policies);
    OrderIdsRenamed(f, s.orders);
    TicketsResolveRenamed(f, s.tickets, OrderIds(s.orders));
    TicketCustomersRenamed(f, s.tickets);
  }

  // ----- the table constraints, spelled out -----

  lemma {:induction false} OrderIdsMember(orders: seq<Order>, id: Uuid)
    ensures id in OrderIds(orders) <==> exists i :: 0 <= i < |orders| && orders[i].id == id
  {
    if orders != [] {
      OrderIdsMember(orders[1..], id);
      if i :| 0 <= i < |orders[1..]| && orders[1..][i].id == id { assert orders[i + 1].id == id; }
      if i :| 0 < i < |orders| && orders[i].id == id { assert orders[1..][i - 1].id == id; }
    }
  }

  /** Distinct ids and no negative amount. */
  ghost predicate OrdersFit(orders: seq<Order>) {
    && (forall i, j | 0 <= i < j < |orders| :: orders[i].id != orders[j].id)
    && (forall i | 0 <= i < |orders| :: orders[i].totalAmount >= 0.0)
  }

  lemma {:induction false} DistinctOrdersIff(orders: seq<Order>)
    ensures DistinctOrders(orders) <==> OrdersFit(orders)
  {
    if orders != [] {
      var rest := orders[1..];
      DistinctOrdersIff(rest);
      OrderIdsMember(rest, orders[0].id);
      if OrdersFit(orders) {
        forall i, j | 0 <= i < j < |rest| ensures rest[i].id != rest[j].id {
          assert orders[i + 1] == rest[i] && orders[j + 1] == rest[j];
        }
      }
      if DistinctOrders(orders) {
        forall i, j | 0 <= i < j < |orders| ensures orders[i].id != orders[j].id {
          assert orders[j] == rest[j - 1];
          if i > 0 { assert orders[i] == rest[i - 1]; }
        }
      }
    }
  }

  lemma {:induction false} TicketIdsMember(tickets: seq<Ticket>, id: Uuid)
    ensures id in TicketIds(tickets) <==> exists i :: 0 <= i < |tickets| && tickets[i].id == id
  {
    if tickets != [] {
      TicketIdsMember(tickets[1..], id);
      if i :| 0 <= i < |tickets[1..]| && tickets[1..][i].id == id { assert tickets[i + 1].id == id; }
      if i :| 0 < i < |tickets| && tickets[i].id == id { assert tickets[1..][i - 1].id == id; }
    }
  }

  ghost predicate TicketsFit(tickets: seq<Ticket>) {
    forall i, j | 0 <= i < j < |tickets| :: tickets[i].id != tickets[j].id
  }

  lemma {:induction false} DistinctTicketsIff(tickets: seq<Ticket>)
    ensures DistinctTickets(tickets) <==> TicketsFit(tickets)
  {
    if tickets != [] {
      var rest := tickets[1..];
      DistinctTicketsIff(rest);
      TicketIdsMember(rest, tickets[0].id);
      if TicketsFit(tickets) {
        forall i, j | 0 <= i < j < |rest| ensures rest[i].id != rest[j].id {
          assert tickets[i + 1] == rest[i] && tickets[j + 1] == rest[j];
        }
      }
      if DistinctTickets(tickets) {
        forall i, j | 0 <= i < j < |tickets| ensures tickets[i].id != tickets[j].id {
          assert tickets[j] == rest[j - 1];
          if i > 0 { assert tickets[i] == rest[i - 1]; }
        }
      }
    }
  }

  lemma {:induction false} TicketsResolveIff(tickets: seq<Ticket>, ids: set<Uuid>)
    ensures TicketsResolve(tickets, ids) <==>
              forall i | 0 <= i < |tickets| && tickets[i].orderId != None :: tickets[i].orderId.value in ids
  {
    if tickets != [] {
      TicketsResolveIff(tickets[1..], ids);
    }
  }

  lemma {:induction false} PolicyKeysMember(policies: seq<Policy>, id: Uuid, key: (string, string))
    ensures id in PolicyIds(policies) <==> exists i :: 0 <= i < |policies| && policies[i].id == id
    ensures key in PolicyKeys(policies)
            <==> exists i :: 0 <= i < |policies| && (policies[i].slug, policies[i].version) == key
  {
    if policies != [] {
      var rest := policies[1..];
      PolicyKeysMember(rest, id, key);
      forall i | 0 <= i < |rest| ensures rest[i] == policies[i + 1] {
      }
      if i :| 0 <= i < |rest| && rest[i].id == id { assert policies[i + 1].id == id; }
      if i :| 0 < i < |policies| && policies[i].id == id { assert rest[i - 1].id == id; }
      if i :| 0 <= i < |rest| && (rest[i].slug, rest[i].version) == key {
        assert (policies[i + 1].slug, policies[i + 1].version) == key;
      }
      if i :| 0 < i < |policies| && (policies[i].slug, policies[i].version) == key {
        assert (rest[i - 1].slug, rest[i - 1].version) == key;
      }
    }
  }

  /** Distinct ids, and distinct pairs of slug and version. */
  ghost predicate PoliciesFit(policies: seq<Policy>) {
    forall i, j | 0 <= i < j < |policies| ::
      && policies[i].id != policies[j].id
      && (policies[i].slug != policies[j].slug || policies[i].version != policies[j].version)
  }

  lemma {:induction false} DistinctPoliciesIff(policies: seq<Policy>)
    ensures DistinctPolicies(policies) <==> PoliciesFit(policies)
  {
    if policies != [] {
      var rest := policies[1..];
      DistinctPoliciesIff(rest);
      PolicyKeysMember(rest, policies[0].id, (policies[0].slug, policies[0].version));
      if PoliciesFit(policies) {
        forall i, j | 0 <= i < j < |rest|
          ensures rest[i].id != rest[j].id && (rest[i].slug != rest[j].slug || rest[i].version != rest[j].version)
        {
          assert policies[i + 1] == rest[i] && policies[j + 1] == rest[j];
        }
      }
      if DistinctPolicies(policies) {
        forall i, j | 0 <= i < j < |policies|
          ensures policies[i].id != policies[j].id
          ensures policies[i].slug != policies[j].slug || policies[i].version != policies[j].version
        {
          assert policies[j] == rest[j - 1];
          if i > 0 { assert policies[i] == rest[i - 1]; }
        }
      }
    }
  }

  /** Every ticket that names an order names one of the state. */
  ghost predicate TicketsNameOrders(s: State) {
    forall i | 0 <= i < |s.tickets| && s.tickets[i].orderId != None ::
      exists j :: 0 <= j < |s.orders| && s.tickets[i].orderId == Some(s.orders[j].id)
  }

  /** The tables accept exactly the states whose rows fit their keys, checks and references. */
  lemma SoundIff(s: State)
    ensures SoundReferences(s) <==>
              OrdersFit(s.orders) && TicketsFit(s.tickets) && PoliciesFit(s.policies) && TicketsNameOrders(s)
  {
    DistinctOrdersIff(s.orders);
    DistinctTicketsIff(s.tickets);
    DistinctPoliciesIff(s.policies);
    TicketsResolveIff(s.tickets, OrderIds(s.orders));
    forall i | 0 <= i < |s.tickets| && s.tickets[i].orderId != None
      ensures s.tickets[i].orderId.value in OrderIds(s.orders) <==>
                exists j :: 0 <= j < |s.orders| && s.tickets[i].orderId == Some(s.orders[j].id)
    {
      OrderIdsMember(s.orders, s.tickets[i].orderId.value);
    }
  }
}
