/** Compiling the state of a scenario into resource seeds, and loading the seeds back. */
module Bundle {
  import opened Ordering
  import opened Simulation

  datatype FieldName =
    | Id | CustomerId | OrderId | Status | TotalAmount | Subject
    | Slug | Version | Title | Content | ContentHash | Name | Email

  /** A JSON scalar of a seed record; identifiers are kept apart from other text. */
  datatype Field = IdText(id: Uuid) | PlainText(text: string) | Decimal(value: real) | Null
                 | NameOf(prefix: nat) | EmailOf(prefix: nat)

  type Record = map<FieldName, Field>

  datatype Seed = Seed(resource: Resource, records: seq<Record>)

  // ----- building records -----

  /** The first eight hexadecimal digits of an id. */
  function Prefix(id: Uuid): nat { id / 0x1_0000_0000_0000_0000_0000_0000 }

  function TicketStatusText(s: TicketStatus): string {
    match s
    case Open => "open"
    case InProgress => "in_progress"
    case Resolved => "resolved"
    case Closed => "closed"
  }

  function ParseTicketStatus(text: string): Option<TicketStatus> {
    if text == "open" then Some(Open)
    else if text == "in_progress" then Some(InProgress)
    else if text == "resolved" then Some(Resolved)
    else if text == "closed" then Some(Closed)
    else None
  }

  /** One record per customer, in the order given. */
  function CustomerRecords(ids: seq<Uuid>, synth: Renaming): seq<Record> {
    if ids == [] then []
    else
      var id := synth(ids[0]);
      [map[Id := IdText(id), Name := NameOf(Prefix(id)), Email := EmailOf(Prefix(id))]]
      + CustomerRecords(ids[1..], synth)
  }

  function OrderRecord(o: Order, synth: Renaming): Record {
    map[Id := IdText(synth(o.id)), CustomerId := IdText(synth(o.customerId)),
        Status := PlainText(OrderStatusText(o.status)), TotalAmount := Decimal(o.totalAmount)]
  }

  function OrderRecords(orders: seq<Order>, synth: Renaming): seq<Record> {
    if orders == [] then [] else [OrderRecord(orders[0], synth)] + OrderRecords(orders[1..], synth)
  }

  function TicketRecord(t: Ticket, synth: Renaming): Record {
    map[Id := IdText(synth(t.id)), CustomerId := IdText(synth(t.customerId)),
        OrderId := if t.orderId.Some? then IdText(synth(t.orderId.value)) else Null,
        Subject := PlainText(t.subject), Status := PlainText(TicketStatusText(t.status))]
  }

  function TicketRecords(tickets: seq<Ticket>, synth: Renaming): seq<Record> {
    if tickets == [] then [] else [TicketRecord(tickets[0], synth)] + TicketRecords(tickets[1..], synth)
  }

  function PolicyRecord(p: Policy, synth: Renaming): Record {
    map[Id := IdText(synth(p.id)), Slug := PlainText(p.slug), Version := PlainText(p.version),
        Title := PlainText(p.title), Content := PlainText(p.content), ContentHash := PlainText(p.contentHash)]
  }

  function PolicyRecords(policies: seq<Policy>, synth: Renaming): seq<Record> {
    if policies == [] then [] else [PolicyRecord(policies[0], synth)] + PolicyRecords(policies[1..], synth)
  }

  // ----- extraction -----

  /** The records of each resource, in the order the extractor visits them. */
  function Extractors(s: State, synth: Renaming): seq<Seed> {
    [ Seed(CustomerResource, CustomerRecords(SortedSet(CustomerIds(s)), synth)),
      Seed(OrderResource, OrderRecords(s.orders, synth)),
      Seed(TicketResource, TicketRecords(s.tickets, synth)),
      Seed(PolicyResource, PolicyRecords(s.policies, synth)) ]
  }

  /** The allowlist's rule for text: not empty, and free of forbidden content. */
  predicate SafeRecord(r: Record, safe: string -> bool) {
    forall k | k in r && r[k].PlainText? :: r[k].text != "" && safe(r[k].text)
  }

  predicate SafeSeed(seed: Seed, safe: string -> bool) {
    forall r | r in seed.records :: SafeRecord(r, safe)
  }

  predicate AllSafe(seeds: seq<Seed>, safe: string -> bool) {
    forall seed | seed in seeds :: SafeSeed(seed, safe)
  }

  /** A seed without records is left out. */
  function Kept(seed: Seed): seq<Seed> { if seed.records == [] then [] else [seed] }

  /** The seeds that hold a record. */
  function SeedsOf(extractors: seq<Seed>): seq<Seed> {
    if extractors == [] then [] else Kept(extractors[0]) + SeedsOf(extractors[1..])
  }

  lemma {:induction false} SeedsOfSnoc(extractors: seq<Seed>, seed: Seed)
    ensures SeedsOf(extractors + [seed]) == SeedsOf(extractors) + Kept(seed)
  {
    if extractors == [] {
      assert [seed][1..] == [];
    } else {
      SeedsOfSnoc(extractors[1..], seed);
      assert (extractors + [seed])[1..] == extractors[1..] + [seed];
      Assoc(Kept(extractors[0]), SeedsOf(extractors[1..]), Kept(seed));
    }
  }

  method ValidateRecords(seed: Seed, safe: string -> bool) returns (ok: bool)
    ensures ok <==> SafeSeed(seed, safe)
  {
    for j := 0 to |seed.records|
      invariant forall k | 0 <= k < j :: SafeRecord(seed.records[k], safe)
    {
      if !SafeRecord(seed.records[j], safe) {
        return false;
      }
    }
    return true;
  }

  method CollectSeeds(extractors: seq<Seed>, safe: string -> bool) returns (r: Option<seq<Seed>>)
    ensures r.Some? <==> AllSafe(extractors, safe)
    ensures r.Some? ==> r.value == SeedsOf(extractors)
  {
    var seeds: seq<Seed> := [];
    for i := 0 to |extractors|
      invariant seeds == SeedsOf(extractors[..i])
      invariant forall k | 0 <= k < i :: SafeSeed(extractors[k], safe)
    {
      assert extractors[..i + 1] == extractors[..i] + [extractors[i]];
      SeedsOfSnoc(extractors[..i], extractors[i]);
      if extractors[i].records != [] {
        seeds := seeds + [extractors[i]];
        var ok := ValidateRecords(extractors[i], safe);
        if !ok {
          return None;
        }
      }
    }
    assert extractors[..|extractors|] == extractors;
    return Some(seeds);
  }

  /** Extraction: nothing but the validated seeds, or nothing at all. */
  method ExtractResourceSeeds(s: State, synth: Renaming, safe: string -> bool) returns (r: Option<seq<Seed>>)
    ensures r.Some? <==> AllSafe(Extractors(s, synth), safe)
    ensures r.Some? ==> r.value == SeedsOf(Extractors(s, synth))
  {
    r := CollectSeeds(Extractors(s, synth), safe);
  }

  // ----- which states can be extracted -----

  /** The text is not empty and the rule allows it. */
  ghost predicate Allowed(text: string, safe: string -> bool) { text != "" && safe(text) }

  ghost predicate OrderAllowed(o: Order, safe: string -> bool) { safe(OrderStatusText(o.status)) }

  ghost predicate TicketAllowed(t: Ticket, safe: string -> bool) {
    Allowed(t.subject, safe) && safe(TicketStatusText(t.status))
  }

  ghost predicate PolicyAllowed(p: Policy, safe: string -> bool) {
    Allowed(p.slug, safe) && Allowed(p.version, safe) && Allowed(p.title, safe) && Allowed(p.content, safe)
    && Allowed(p.contentHash, safe)
  }

  lemma {:induction false} CustomerRecordsSafe(ids: seq<Uuid>, synth: Renaming, safe: string -> bool)
    ensures forall r | r in CustomerRecords(ids, synth) :: SafeRecord(r, safe)
  {
    if ids != [] { CustomerRecordsSafe(ids[1..], synth, safe); }
  }

  lemma OrderRecordSafe(o: Order, synth: Renaming, safe: string -> bool)
    ensures SafeRecord(OrderRecord(o, synth), safe) <==> OrderAllowed(o, safe)
  {
    var r := OrderRecord(o, synth);
    assert r[Status] == PlainText(OrderStatusText(o.status)) && |OrderStatusText(o.status)| > 0;
  }

  lemma {:induction false} OrderRecordsSafe(orders: seq<Order>, synth: Renaming, safe: string -> bool)
    ensures (forall r | r in OrderRecords(orders, synth) :: SafeRecord(r, safe))
            <==> forall o | o in orders :: OrderAllowed(o, safe)
  {
    if orders != [] {
      OrderRecordsSafe(orders[1..], synth, safe);
      OrderRecordSafe(orders[0], synth, safe);
      var records := OrderRecords(orders, synth);
      assert records == [OrderRecord(orders[0], synth)] + OrderRecords(orders[1..], synth);
      assert forall o :: o in orders <==> o == orders[0] || o in orders[1..];
    }
  }

  lemma TicketRecordSafe(t: Ticket, synth: Renaming, safe: string -> bool)
    ensures SafeRecord(TicketRecord(t, synth), safe) <==> TicketAllowed(t, safe)
  {
    var r := TicketRecord(t, synth);
    assert r[Subject] == PlainText(t.subject);
    assert r[Status] == PlainText(TicketStatusText(t.status)) && |TicketStatusText(t.status)| > 0;
  }

  lemma {:induction false} TicketRecordsSafe(tickets: seq<Ticket>, synth: Renaming, safe: string -> bool)
    ensures (forall r | r in TicketRecords(tickets, synth) :: SafeRecord(r, safe))
            <==> forall t | t in tickets :: TicketAllowed(t, safe)
  {
    if tickets != [] {
      TicketRecordsSafe(tickets[1..], synth, safe);
      TicketRecordSafe(tickets[0], synth, safe);
      var records := TicketRecords(tickets, synth);
      assert records == [TicketRecord(tickets[0], synth)] + TicketRecords(tickets[1..], synth);
      assert forall t :: t in tickets <==> t == tickets[0] || t in tickets[1..];
    }
  }

  lemma PolicyRecordSafe(p: Policy, synth: Renaming, safe: string -> bool)
    ensures SafeRecord(PolicyRecord(p, synth), safe) <==> PolicyAllowed(p, safe)
  {
    var r := PolicyRecord(p, synth);
    assert r[Slug] == PlainText(p.slug) && r[Version] == PlainText(p.version) && r[Title] == PlainText(p.title);
    assert r[Content] == PlainText(p.content) && r[ContentHash] == PlainText(p.contentHash);
  }

  lemma {:induction false} PolicyRecordsSafe(policies: seq<Policy>, synth: Renaming, safe: string -> bool)
    ensures (forall r | r in PolicyRecords(policies, synth) :: SafeRecord(r, safe))
            <==> forall p | p in policies :: PolicyAllowed(p, safe)
  {
    if policies != [] {
      PolicyRecordsSafe(policies[1..], synth, safe);
      PolicyRecordSafe(policies[0], synth, safe);
      var records := PolicyRecords(policies, synth);
      assert records == [PolicyRecord(policies[0], synth)] + PolicyRecords(policies[1..], synth);
      assert forall p :: p in policies <==> p == policies[0] || p in policies[1..];
    }
  }

  /** A state can be extracted exactly when the rule allows each of its texts; ids, amounts and the derived names and
      addresses of customers are always allowed. */
  lemma ExtractableIff(s: State, synth: Renaming, safe: string -> bool)
    ensures AllSafe(Extractors(s, synth), safe) <==>
              && (forall o | o in s.orders :: OrderAllowed(o, safe))
              && (forall t | t in s.tickets :: TicketAllowed(t, safe))
              && (forall p | p in s.policies :: PolicyAllowed(p, safe))
  {
    var e := Extractors(s, synth);
    CustomerRecordsSafe(SortedSet(CustomerIds(s)), synth, safe);
    OrderRecordsSafe(s.orders, synth, safe);
    TicketRecordsSafe(s.tickets, synth, safe);
    PolicyRecordsSafe(s.policies, synth, safe);
    assert AllSafe(e, safe) <==>
             SafeSeed(e[0], safe) && SafeSeed(e[1], safe) && SafeSeed(e[2], safe) && SafeSeed(e[3], safe);
  }

  // ----- loading -----

  /** The records of a seed, if it is of this resource. */
  function RecordsIn(seed: Seed, resource: Resource): seq<Record> {
    if seed.resource == resource then seed.records else []
  }

  /** All records of one resource, seed by seed. */
  function RecordsOf(seeds: seq<Seed>, resource: Resource): seq<Record> {
    if seeds == [] then [] else RecordsIn(seeds[0], resource) + RecordsOf(seeds[1..], resource)
  }

  lemma {:induction false} RecordsOfSnoc(seeds: seq<Seed>, seed: Seed, resource: Resource)
    ensures RecordsOf(seeds + [seed], resource) == RecordsOf(seeds, resource) + RecordsIn(seed, resource)
  {
    if seeds == [] {
      assert [seed][1..] == [];
    } else {
      RecordsOfSnoc(seeds[1..], seed, resource);
      assert (seeds + [seed])[1..] == seeds[1..] + [seed];
      Assoc(RecordsIn(seeds[0], resource), RecordsOf(seeds[1..], resource), RecordsIn(seed, resource));
    }
  }

  function Lookup(grouped: map<Resource, seq<Record>>, resource: Resource): seq<Record> {
    if resource in grouped then grouped[resource] else []
  }

  /** Groups seeds by resource; repeated seeds of one resource are joined in order. */
  method ResourcesByType(seeds: seq<Seed>) returns (grouped: map<Resource, seq<Record>>)
    ensures forall resource :: Lookup(grouped, resource) == RecordsOf(seeds, resource)
  {
    grouped := map[];
    for i := 0 to |seeds|
      invariant forall resource :: Lookup(grouped, resource) == RecordsOf(seeds[..i], resource)
    {
      var seed := seeds[i];
      assert seeds[..i + 1] == seeds[..i] + [seed];
      forall resource
        ensures RecordsOf(seeds[..i + 1], resource)
             == RecordsOf(seeds[..i], resource) + RecordsIn(seed, resource)
      {
        RecordsOfSnoc(seeds[..i], seed, resource);
      }
      ghost var before := grouped;
      grouped := grouped[seed.resource := Lookup(grouped, seed.resource) + seed.records];
      forall resource ensures Lookup(grouped, resource) == RecordsOf(seeds[..i + 1], resource) {
        assert Lookup(before, resource) == RecordsOf(seeds[..i], resource);
      }
    }
    assert seeds[..|seeds|] == seeds;
  }

  predicate HasId(r: Record, k: FieldName) { k in r && r[k].IdText? }

  predicate HasText(r: Record, k: FieldName) { k in r && r[k].PlainText? }

  /** A malformed record makes loading fail. */
  function LoadOrder(r: Record): Option<Order> {
    if HasId(r, Id) && HasId(r, CustomerId) && HasText(r, Status) && TotalAmount in r && r[TotalAmount].Decimal?
    then
      match ParseOrderStatus(r[Status].text)
      case None => None
      case Some(status) => Some(Order(r[Id].id, r[CustomerId].id, status, r[TotalAmount].value))
    else None
  }

  function LoadOrders(rs: seq<Record>): Option<seq<Order>> {
    if rs == [] then Some([])
    else
      match (LoadOrder(rs[0]), LoadOrders(rs[1..]))
      case (Some(o), Some(rest)) => Some([o] + rest)
      case _ => None
  }

  /** An absent, null or empty order id loads as no order. */
  function LoadTicket(r: Record): Option<Ticket> {
    if HasId(r, Id) && HasId(r, CustomerId) && HasText(r, Subject) && HasText(r, Status) then
      var orderId :=
        if OrderId !in r || r[OrderId] == Null || r[OrderId] == PlainText("") then Some(None)
        else if r[OrderId].IdText? then Some(Some(r[OrderId].id))
        else None;
      match (orderId, ParseTicketStatus(r[Status].text))
      case (Some(order), Some(status)) => Some(Ticket(r[Id].id, r[CustomerId].id, order, r[Subject].text, status))
      case _ => None
    else None
  }

  function LoadTickets(rs: seq<Record>): Option<seq<Ticket>> {
    if rs == [] then Some([])
    else
      match (LoadTicket(rs[0]), LoadTickets(rs[1..]))
      case (Some(t), Some(rest)) => Some([t] + rest)
      case _ => None
  }

  function LoadPolicy(r: Record): Option<Policy> {
    if HasId(r, Id) && HasText(r, Slug) && HasText(r, Version) && HasText(r, Title) && HasText(r, Content)
       && HasText(r, ContentHash)
    then Some(Policy(r[Id].id, r[Slug].text, r[Version].text, r[Title].text, r[Content].text, r[ContentHash].text))
    else None
  }

  function LoadPolicies(rs: seq<Record>): Option<seq<Policy>> {
    if rs == [] then Some([])
    else
      match (LoadPolicy(rs[0]), LoadPolicies(rs[1..]))
      case (Some(p), Some(rest)) => Some([p] + rest)
      case _ => None
  }

  /** The disposable state rebuilt from the seeds. */
  function Load(seeds: seq<Seed>): Option<State> {
    match (LoadOrders(RecordsOf(seeds, OrderResource)), LoadTickets(RecordsOf(seeds, TicketResource)),
           LoadPolicies(RecordsOf(seeds, PolicyResource)))
    case (Some(orders), Some(tickets), Some(policies)) => Some(State(orders, tickets, policies))
    case _ => None
  }

  // ----- what a record must look like -----

  ghost predicate OrderStatusNamed(text: string, s: OrderStatus) {
    match s
    case Pending => text == "pending"
    case Processing => text == "processing"
    case Shipped => text == "shipped"
    case Delivered => text == "delivered"
    case Cancelled => text == "cancelled"
    case Refunded => text == "refunded"
  }

  ghost predicate TicketStatusNamed(text: string, s: TicketStatus) {
    match s
    case Open => text == "open"
    case InProgress => text == "in_progress"
    case Resolved => text == "resolved"
    case Closed => text == "closed"
  }

  ghost predicate Holds(r: Record, k: FieldName, f: Field) { k in r && r[k] == f }

  /** The record describes exactly this order; fields of other names do not matter. */
  ghost predicate DescribesOrder(r: Record, o: Order) {
    && Holds(r, Id, IdText(o.id)) && Holds(r, CustomerId, IdText(o.customerId))
    && Holds(r, TotalAmount, Decimal(o.totalAmount))
    && Status in r && r[Status].PlainText? && OrderStatusNamed(r[Status].text, o.status)
  }

  /** A ticket without an order has no such field, or one that is null or empty. */
  ghost predicate DescribesTicket(r: Record, t: Ticket) {
    && Holds(r, Id, IdText(t.id)) && Holds(r, CustomerId, IdText(t.customerId))
    && Holds(r, Subject, PlainText(t.subject))
    && Status in r && r[Status].PlainText? && TicketStatusNamed(r[Status].text, t.status)
    && match t.orderId
       case Some(id) => Holds(r, OrderId, IdText(id))
       case None => OrderId !in r || r[OrderId] == Null || r[OrderId] == PlainText("")
  }

  ghost predicate DescribesPolicy(r: Record, p: Policy) {
    && Holds(r, Id, IdText(p.id)) && Holds(r, Slug, PlainText(p.slug)) && Holds(r, Version, PlainText(p.version))
    && Holds(r, Title, PlainText(p.title)) && Holds(r, Content, PlainText(p.content))
    && Holds(r, ContentHash, PlainText(p.contentHash))
  }

  lemma LoadOrderIff(r: Record, o: Order)
    ensures LoadOrder(r) == Some(o) <==> DescribesOrder(r, o)
  {
  }

  lemma LoadTicketIff(r: Record, t: Ticket)
    ensures LoadTicket(r) == Some(t) <==> DescribesTicket(r, t)
  {
  }

  lemma LoadPolicyIff(r: Record, p: Policy)
    ensures LoadPolicy(r) == Some(p) <==> DescribesPolicy(r, p)
  {
  }

  lemma {:induction false} LoadOrdersIff(rs: seq<Record>, orders: seq<Order>)
    ensures LoadOrders(rs) == Some(orders)
            <==> |orders| == |rs| && forall i | 0 <= i < |rs| :: DescribesOrder(rs[i], orders[i])
  {
    if rs != [] && orders != [] {
      LoadOrdersIff(rs[1..], orders[1..]);
      LoadOrderIff(rs[0], orders[0]);
      assert orders == [orders[0]] + orders[1..];
    }
  }

  lemma {:induction false} LoadTicketsIff(rs: seq<Record>, tickets: seq<Ticket>)
    ensures LoadTickets(rs) == Some(tickets)
            <==> |tickets| == |rs| && forall i | 0 <= i < |rs| :: DescribesTicket(rs[i], tickets[i])
  {
    if rs != [] && tickets != [] {
      LoadTicketsIff(rs[1..], tickets[1..]);
      LoadTicketIff(rs[0], tickets[0]);
      assert tickets == [tickets[0]] + tickets[1..];
    }
  }

  lemma {:induction false} LoadPoliciesIff(rs: seq<Record>, policies: seq<Policy>)
    ensures LoadPolicies(rs) == Some(policies)
            <==> |policies| == |rs| && forall i | 0 <= i < |rs| :: DescribesPolicy(rs[i], policies[i])
  {
    if rs != [] && policies != [] {
      LoadPoliciesIff(rs[1..], policies[1..]);
      LoadPolicyIff(rs[0], policies[0]);
      assert policies == [policies[0]] + policies[1..];
    }
  }

  /** The records of each resource describe the state one by one, in order. */
  ghost predicate Describes(seeds: seq<Seed>, s: State) {
    var orders, tickets, policies :=
      RecordsOf(seeds, OrderResource), RecordsOf(seeds, TicketResource), RecordsOf(seeds, PolicyResource);
    && |s.orders| == |orders| && (forall i | 0 <= i < |orders| :: DescribesOrder(orders[i], s.orders[i]))
    && |s.tickets| == |tickets| && (forall i | 0 <= i < |tickets| :: DescribesTicket(tickets[i], s.tickets[i]))
    && |s.policies| == |policies| && (forall i | 0 <= i < |policies| :: DescribesPolicy(policies[i], s.policies[i]))
  }

  /** Loading finds exactly the state that the seeds describe, and fails when they describe none. */
  lemma LoadIff(seeds: seq<Seed>, s: State)
    ensures Load(seeds) == Some(s) <==> Describes(seeds, s)
  {
    LoadOrdersIff(RecordsOf(seeds, OrderResource), s.orders);
    LoadTicketsIff(RecordsOf(seeds, TicketResource), s.tickets);
    LoadPoliciesIff(RecordsOf(seeds, PolicyResource), s.policies);
  }

  method StateFromBundle(seeds: seq<Seed>) returns (s: Option<State>)
    ensures s == Load(seeds)
    ensures forall t :: s == Some(t) <==> Describes(seeds, t)
  {
    forall t ensures Load(seeds) == Some(t) <==> Describes(seeds, t) { LoadIff(seeds, t); }
    var resources := ResourcesByType(seeds);
    var orders := LoadOrders(Lookup(resources, OrderResource));
    var tickets := LoadTickets(Lookup(resources, TicketResource));
    var policies := LoadPolicies(Lookup(resources, PolicyResource));
    if orders.Some? && tickets.Some? && policies.Some? {
      s := Some(State(orders.value, tickets.value, policies.value));
    } else {
      s := None;
    }
  }

  // ----- the round trip -----

  lemma {:induction false} OrdersReload(orders: seq<Order>, synth: Renaming)
    ensures LoadOrders(OrderRecords(orders, synth)) == Some(RenameOrders(synth, orders))
  {
    if orders == [] {
    } else {
      OrdersReload(orders[1..], synth);
      assert OrderRecords(orders, synth)[1..] == OrderRecords(orders[1..], synth);
      assert LoadOrder(OrderRecord(orders[0], synth)) == Some(RenameOrder(synth, orders[0]));
    }
  }

  lemma {:induction false} TicketsReload(tickets: seq<Ticket>, synth: Renaming)
    ensures LoadTickets(TicketRecords(tickets, synth)) == Some(RenameTickets(synth, tickets))
  {
    if tickets == [] {
    } else {
      TicketsReload(tickets[1..], synth);
      assert TicketRecords(tickets, synth)[1..] == TicketRecords(tickets[1..], synth);
      assert LoadTicket(TicketRecord(tickets[0], synth)) == Some(RenameTicket(synth, tickets[0]));
    }
  }

  lemma {:induction false} PoliciesReload(policies: seq<Policy>, synth: Renaming)
    ensures LoadPolicies(PolicyRecords(policies, synth)) == Some(RenamePolicies(synth, policies))
  {
    if policies == [] {
    } else {
      PoliciesReload(policies[1..], synth);
      assert PolicyRecords(policies, synth)[1..] == PolicyRecords(policies[1..], synth);
      assert LoadPolicy(PolicyRecord(policies[0], synth)) == Some(RenamePolicy(synth, policies[0]));
    }
  }

  lemma RecordsOfKept(seed: Seed, rest: seq<Seed>, resource: Resource)
    ensures RecordsOf(Kept(seed) + rest, resource) == RecordsIn(seed, resource) + RecordsOf(rest, resource)
  {
    if seed.records == [] {
      assert Kept(seed) + rest == rest && RecordsIn(seed, resource) == [];
    } else {
      assert (Kept(seed) + rest)[0] == seed && (Kept(seed) + rest)[1..] == rest;
    }
  }

  /** Leaving out the empty seeds loses no record. */
  lemma {:induction false} EmptySeedsDoNotMatter(extractors: seq<Seed>, resource: Resource)
    ensures RecordsOf(SeedsOf(extractors), resource) == RecordsOf(extractors, resource)
  {
    if extractors != [] {
      EmptySeedsDoNotMatter(extractors[1..], resource);
      RecordsOfKept(extractors[0], SeedsOf(extractors[1..]), resource);
    }
  }

  lemma {:induction false} NoRecords(seeds: seq<Seed>, resource: Resource)
    requires forall j | 0 <= j < |seeds| :: seeds[j].resource != resource
    ensures RecordsOf(seeds, resource) == []
  {
    if seeds != [] { NoRecords(seeds[1..], resource); }
  }

  lemma {:induction false} OneSource(seeds: seq<Seed>, resource: Resource, k: nat)
    requires k < |seeds| && forall j | 0 <= j < |seeds| :: seeds[j].resource == resource <==> j == k
    ensures RecordsOf(seeds, resource) == seeds[k].records
  {
    if k == 0 {
      NoRecords(seeds[1..], resource);
    } else {
      OneSource(seeds[1..], resource, k - 1);
    }
  }

  /** Each resource comes from its own extractor. */
  lemma ExtractedRecords(s: State, synth: Renaming)
    ensures RecordsOf(SeedsOf(Extractors(s, synth)), CustomerResource)
         == CustomerRecords(SortedSet(CustomerIds(s)), synth)
    ensures RecordsOf(SeedsOf(Extractors(s, synth)), OrderResource) == OrderRecords(s.orders, synth)
    ensures RecordsOf(SeedsOf(Extractors(s, synth)), TicketResource) == TicketRecords(s.tickets, synth)
    ensures RecordsOf(SeedsOf(Extractors(s, synth)), PolicyResource) == PolicyRecords(s.policies, synth)
  {
    var e := Extractors(s, synth);
    forall resource ensures RecordsOf(SeedsOf(e), resource) == RecordsOf(e, resource) {
      EmptySeedsDoNotMatter(e, resource);
    }
    OneSource(e, CustomerResource, 0);
    OneSource(e, OrderResource, 1);
    OneSource(e, TicketResource, 2);
    OneSource(e, PolicyResource, 3);
  }

  /** Loading what was extracted gives the source state with every id renamed, and nothing else changed. */
  lemma ReloadIsRename(s: State, synth: Renaming)
    ensures Load(SeedsOf(Extractors(s, synth))) == Some(RenameState(synth, s))
  {
    ExtractedRecords(s, synth);
    OrdersReload(s.orders, synth);
    TicketsReload(s.tickets, synth);
    PoliciesReload(s.policies, synth);
  }

  /** An injective renaming loses nothing: states with equal seeds are equal. */
  lemma ReloadIsFaithful(s: State, t: State, synth: Renaming)
    requires Injective(synth)
    requires SeedsOf(Extractors(s, synth)) == SeedsOf(Extractors(t, synth))
    ensures s == t
  {
    ReloadIsRename(s, synth);
    ReloadIsRename(t, synth);
    OrdersInjective(s.orders, t.orders, synth);
    TicketsInjective(s.tickets, t.tickets, synth);
    PoliciesInjective(s.policies, t.policies, synth);
  }

  lemma {:induction false} OrdersInjective(a: seq<Order>, b: seq<Order>, f: Renaming)
    requires Injective(f) && RenameOrders(f, a) == RenameOrders(f, b)
    ensures a == b
  {
    if a == [] || b == [] {
    } else {
      assert RenameOrders(f, a)[0] == RenameOrders(f, b)[0];
      assert RenameOrders(f, a)[1..] == RenameOrders(f, b)[1..];
      OrdersInjective(a[1..], b[1..], f);
      assert a == [a[0]] + a[1..] && b == [b[0]] + b[1..];
    }
  }

  lemma {:induction false} TicketsInjective(a: seq<Ticket>, b: seq<Ticket>, f: Renaming)
    requires Injective(f) && RenameTickets(f, a) == RenameTickets(f, b)
    ensures a == b
  {
    if a == [] || b == [] {
    } else {
      assert RenameTickets(f, a)[0] == RenameTickets(f, b)[0];
      assert RenameTickets(f, a)[1..] == RenameTickets(f, b)[1..];
      TicketsInjective(a[1..], b[1..], f);
      assert a == [a[0]] + a[1..] && b == [b[0]] + b[1..];
    }
  }

  lemma {:induction false} PoliciesInjective(a: seq<Policy>, b: seq<Policy>, f: Renaming)
    requires Injective(f) && RenamePolicies(f, a) == RenamePolicies(f, b)
    ensures a == b
  {
    if a == [] || b == [] {
    } else {
      assert RenamePolicies(f, a)[0] == RenamePolicies(f, b)[0];
      assert RenamePolicies(f, a)[1..] == RenamePolicies(f, b)[1..];
      PoliciesInjective(a[1..], b[1..], f);
      assert a == [a[0]] + a[1..] && b == [b[0]] + b[1..];
    }
  }

  // ----- the seeded customers -----

  /** `prefix` is the first eight of the 32 hexadecimal digits of `id`. */
  ghost predicate FirstDigits(prefix: nat, id: Uuid) {
    prefix * 0x1_0000_0000_0000_0000_0000_0000 <= id < (prefix + 1) * 0x1_0000_0000_0000_0000_0000_0000
  }

  /** The record names the synthetic id, and derives name and address from its first digits. */
  ghost predicate IsCustomerRecord(r: Record, id: Uuid) {
    exists prefix: nat ::
      FirstDigits(prefix, id) && r == map[Id := IdText(id), Name := NameOf(prefix), Email := EmailOf(prefix)]
  }

  lemma {:induction false} CustomerRecordAt(ids: seq<Uuid>, synth: Renaming, i: nat)
    requires i < |ids|
    ensures |CustomerRecords(ids, synth)| == |ids|
    ensures IsCustomerRecord(CustomerRecords(ids, synth)[i], synth(ids[i]))
  {
    if i == 0 {
      CustomerRecordsLength(ids, synth);
      assert FirstDigits(Prefix(synth(ids[0])), synth(ids[0]));
    } else {
      CustomerRecordAt(ids[1..], synth, i - 1);
    }
  }

  /** Record `i` is the seeded customer for the original id `c`. */
  ghost predicate SeedsCustomer(records: seq<Record>, i: nat, synth: Renaming, c: Uuid) {
    i < |records| && IsCustomerRecord(records[i], synth(c))
  }

  /** Every customer of an order or a ticket is seeded, exactly once, and nobody else is. */
  lemma CustomersSeededOnce(s: State, synth: Renaming, c: Uuid)
    requires Injective(synth)
    ensures c in CustomerIds(s)
            <==> exists i: nat :: SeedsCustomer(RecordsOf(SeedsOf(Extractors(s, synth)), CustomerResource), i, synth, c)
    ensures forall i: nat, j: nat ::
              && SeedsCustomer(RecordsOf(SeedsOf(Extractors(s, synth)), CustomerResource), i, synth, c)
              && SeedsCustomer(RecordsOf(SeedsOf(Extractors(s, synth)), CustomerResource), j, synth, c)
              ==> i == j
    ensures |RecordsOf(SeedsOf(Extractors(s, synth)), CustomerResource)| == |CustomerIds(s)|
  {
    ExtractedRecords(s, synth);
    var ids := SortedSet(CustomerIds(s));
    var records := CustomerRecords(ids, synth);
    SortedSetIncreasing(CustomerIds(s));
    SortedSetMembers(CustomerIds(s), c);
    CustomerRecordsLength(ids, synth);
    assert forall i: nat :: SeedsCustomer(records, i, synth, c) <==> i < |ids| && ids[i] == c by {
      forall i: nat ensures SeedsCustomer(records, i, synth, c) <==> i < |ids| && ids[i] == c {
        if i < |ids| {
          CustomerRecordAt(ids, synth, i);
          if SeedsCustomer(records, i, synth, c) { OneCustomer(records[i], synth(ids[i]), synth(c)); }
        }
      }
    }
    if c in ids {
      var i :| 0 <= i < |ids| && ids[i] == c;
      assert SeedsCustomer(records, i, synth, c);
    }
    forall i: nat, j: nat | SeedsCustomer(records, i, synth, c) && SeedsCustomer(records, j, synth, c) ensures i == j {
      if i < j { IncreasingAt(ids, i, j); }
      if j < i { IncreasingAt(ids, j, i); }
    }
  }

  lemma OneCustomer(r: Record, x: Uuid, y: Uuid)
    requires IsCustomerRecord(r, x) && IsCustomerRecord(r, y)
    ensures x == y
  {
    assert r[Id] == IdText(x) && r[Id] == IdText(y);
  }

  lemma {:induction false} CustomerRecordsLength(ids: seq<Uuid>, synth: Renaming)
    ensures |CustomerRecords(ids, synth)| == |ids|
  {
    if ids != [] { CustomerRecordsLength(ids[1..], synth); }
  }
}
