/** The ordered transcript of a run and the bounded queues of its live subscribers. */
module EventCollector {
  import opened Ordering

  datatype Event = Event(sequence: nat, payload: nat, attributes: set<string>)

  type StreamId = nat

  /** One subscriber: what waits in its queue, what it received, how long the transcript was when it
      subscribed, how many events its full queue dropped, and up to where in the transcript it was served. */
  datatype Stream = Stream(waiting: seq<Event>, delivered: seq<Event>, start: nat, dropped: nat, served: nat)

  /** `sequence` is the last number given out, also to an event that was then refused. */
  datatype State = State(bound: nat, allowlist: set<string>, events: seq<Event>, sequence: nat,
                         streams: map<StreamId, Stream>)

  function Start(bound: nat, allowlist: set<string>): State { State(bound, allowlist, [], 0, map[]) }

  /** A full queue loses its oldest event. */
  function Push(s: Stream, e: Event, bound: nat): Stream {
    if |s.waiting| >= bound && s.waiting != [] then s.(waiting := s.waiting[1..] + [e], dropped := s.dropped + 1)
    else s.(waiting := s.waiting + [e])
  }

  function NextEvent(s: State, payload: nat, attributes: set<string>): Event {
    Event(s.sequence + 1, payload, attributes)
  }

  /** An event with an attribute outside the allowlist is refused, after its number was given out. */
  function Emit(s: State, payload: nat, attributes: set<string>): State {
    var e := NextEvent(s, payload, attributes);
    if attributes <= s.allowlist then
      s.(events := s.events + [e], sequence := s.sequence + 1,
         streams := map id | id in s.streams :: Push(s.streams[id], e, s.bound))
    else
      s.(sequence := s.sequence + 1)
  }

  function Subscribe(s: State, id: StreamId): State {
    s.(streams := s.streams[id := Stream([], [], |s.events|, 0, |s.events|)])
  }

  /** The place in the transcript of the oldest event that waits. */
  function Head(s: Stream): nat { s.start + |s.delivered| + s.dropped }

  function Deliver(s: Stream): Stream
    requires s.waiting != []
  {
    s.(waiting := s.waiting[1..], delivered := s.delivered + [s.waiting[0]], served := Head(s) + 1)
  }

  function Unsubscribe(s: State, id: StreamId): State { s.(streams := s.streams - {id}) }

  // ----- the collector -----

  class Collector {
    const bound: nat
    const allowlist: set<string>
    var events: seq<Event>
    var sequence: nat
    var streams: map<StreamId, Stream>

    ghost predicate Valid() reads this { Good(Contents()) }

    ghost function Contents(): State reads this { State(bound, allowlist, events, sequence, streams) }

    constructor (subscriberBuffer: nat, allowlist: set<string>)
      requires subscriberBuffer >= 1
      ensures Valid() && Contents() == Start(subscriberBuffer, allowlist)
    {
      bound, this.allowlist := subscriberBuffer, allowlist;
      events, sequence, streams := [], 0, map[];
    }

    /** Pushes the event into every queue. */
    method HandToSubscribers(e: Event)
      requires bound >= 1
      modifies this`streams
      ensures streams.Keys == old(streams).Keys
      ensures forall id | id in old(streams) :: streams[id] == Push(old(streams)[id], e, bound)
    {
      var todo := streams.Keys;
      while todo != {}
        invariant todo <= streams.Keys == old(streams).Keys
        invariant forall id | id in old(streams) ::
                    streams[id] == if id in todo then old(streams)[id] else Push(old(streams)[id], e, bound)
        decreases |todo|
      {
        var id :| id in todo;
        var s := streams[id];
        if |s.waiting| >= bound {
          s := s.(waiting := s.waiting[1..], dropped := s.dropped + 1);
        }
        streams := streams[id := s.(waiting := s.waiting + [e])];
        todo := todo - {id};
      }
    }

    /** Records one event and hands it to every subscriber; a refused event still uses up a number. */
    method EmitEvent(payload: nat, attributes: set<string>) returns (e: Option<Event>)
      requires Valid()
      modifies this
      ensures Valid() && Contents() == Emit(old(Contents()), payload, attributes)
      ensures e == if attributes <= allowlist then Some(NextEvent(old(Contents()), payload, attributes)) else None
    {
      ghost var before := Contents();
      EmitKeeps(before, payload, attributes);
      sequence := sequence + 1;
      if !(attributes <= allowlist) {
        return None;
      }
      var event := Event(sequence, payload, attributes);
      events := events + [event];
      HandToSubscribers(event);
      SameEmit(before, payload, attributes, events, streams);
      e := Some(event);
    }

    method Open(id: StreamId)
      requires Valid() && id !in streams
      modifies this`streams
      ensures Valid() && Contents() == Subscribe(old(Contents()), id)
    {
      SubscribeKeeps(Contents(), id);
      streams := streams[id := Stream([], [], |events|, 0, |events|)];
    }

    /** One turn of the stream's loop: it ends when drained and told to, else delivers what waits. */
    method Turn(id: StreamId, until: bool) returns (ended: bool, e: Option<Event>)
      requires Valid() && id in streams
      modifies this`streams
      ensures Valid() && ended == (until && old(streams)[id].waiting == [])
      ensures ended ==> Contents() == Unsubscribe(old(Contents()), id) && e == None
      ensures !ended && old(streams)[id].waiting == [] ==> Contents() == old(Contents()) && e == None
      ensures !ended && old(streams)[id].waiting != [] ==>
                && streams == old(streams)[id := Deliver(old(streams)[id])] && e == Some(old(streams)[id].waiting[0])
    {
      var s := streams[id];
      e := None;
      ended := until && s.waiting == [];
      if ended {
        UnsubscribeKeeps(Contents(), id);
        streams := streams - {id};
      } else if s.waiting != [] {
        DeliverKeeps(Contents(), id);
        e := Some(s.waiting[0]);
        streams := streams[id := Deliver(s)];
      }
    }

    /** The consumer stops. */
    method Close(id: StreamId)
      requires Valid()
      modifies this`streams
      ensures Valid() && Contents() == Unsubscribe(old(Contents()), id)
    {
      UnsubscribeKeeps(Contents(), id);
      streams := streams - {id};
    }
  }

  /** A buffer below one is refused. */
  method MakeCollector(subscriberBuffer: int, allowlist: set<string>) returns (c: Option<Collector>)
    ensures c.Some? <==> subscriberBuffer >= 1
    ensures c.Some? ==> fresh(c.value) && c.value.Valid() && c.value.Contents() == Start(subscriberBuffer, allowlist)
  {
    if subscriberBuffer < 1 {
      return None;
    }
    var made := new Collector(subscriberBuffer, allowlist);
    c := Some(made);
  }

  // ----- the invariant -----

  /** Numbers rise strictly and stay within the last one given out. */
  ghost predicate Rising(events: seq<Event>) {
    forall i, j | 0 <= i < j < |events| :: events[i].sequence < events[j].sequence
  }

  ghost predicate NumberedUpTo(events: seq<Event>, sequence: nat) {
    Rising(events) && forall i | 0 <= i < |events| :: events[i].sequence <= sequence
  }

  function Min(a: int, b: int): int { if a <= b then a else b }

  /** The queue is the contiguous end of the transcript, cut to the bound behind what was served. */
  ghost predicate QueueOk(s: Stream, events: seq<Event>, bound: nat) {
    && s.start <= s.served <= Head(s) <= |events|
    && s.waiting == events[Head(s)..]
    && |s.waiting| == Min(bound, |events| - s.served)
  }

  /** The event stands in the transcript at a place from `lo` up to `hi`. */
  ghost predicate Placed(e: Event, events: seq<Event>, lo: nat, hi: nat) {
    exists k :: lo <= k < hi && k < |events| && events[k] == e
  }

  ghost predicate AllPlaced(d: seq<Event>, events: seq<Event>, lo: nat, hi: nat) {
    forall i | 0 <= i < |d| :: Placed(d[i], events, lo, hi)
  }

  /** What was delivered rises, comes from the transcript since the subscription, and ends where it was served. */
  ghost predicate DeliveredOk(s: Stream, events: seq<Event>) {
    && s.start <= s.served <= |events| && Rising(s.delivered)
    && AllPlaced(s.delivered, events, s.start, s.served)
    && (if s.delivered == [] then s.served == s.start
        else s.served > s.start && events[s.served - 1] == s.delivered[|s.delivered| - 1])
  }

  /** Without a drop everything since the subscription was delivered or waits. */
  ghost predicate CompleteOk(s: Stream, events: seq<Event>) {
    s.start <= |events| && (s.dropped == 0 ==> s.delivered + s.waiting == events[s.start..])
  }

  ghost predicate StreamOk(s: Stream, events: seq<Event>, bound: nat) {
    QueueOk(s, events, bound) && DeliveredOk(s, events) && CompleteOk(s, events)
  }

  ghost predicate Good(s: State) {
    && s.bound >= 1 && NumberedUpTo(s.events, s.sequence)
    && forall id | id in s.streams :: StreamOk(s.streams[id], s.events, s.bound)
  }

  lemma SuffixSnoc(events: seq<Event>, e: Event, k: nat)
    requires k <= |events|
    ensures (events + [e])[k..] == events[k..] + [e]
    ensures k < |events| ==> (events + [e])[k + 1..] == events[k..][1..] + [e]
  {
  }

  lemma PushQueue(s: Stream, events: seq<Event>, e: Event, bound: nat)
    requires QueueOk(s, events, bound) && bound >= 1
    ensures QueueOk(Push(s, e, bound), events + [e], bound)
  {
    SuffixSnoc(events, e, Head(s));
  }

  lemma PlacedInLonger(d: seq<Event>, events: seq<Event>, e: Event, lo: nat, hi: nat)
    requires AllPlaced(d, events, lo, hi)
    ensures AllPlaced(d, events + [e], lo, hi)
  {
    forall i | 0 <= i < |d| ensures Placed(d[i], events + [e], lo, hi) {
      assert Placed(d[i], events, lo, hi);
      var k :| lo <= k < hi && k < |events| && events[k] == d[i];
      assert (events + [e])[k] == d[i];
    }
  }

  lemma PushDelivered(s: Stream, events: seq<Event>, e: Event, bound: nat)
    requires DeliveredOk(s, events)
    ensures DeliveredOk(Push(s, e, bound), events + [e])
  {
    PlacedInLonger(s.delivered, events, e, s.start, s.served);
  }

  lemma PushComplete(s: Stream, events: seq<Event>, e: Event, bound: nat)
    requires CompleteOk(s, events) && bound >= 1
    ensures CompleteOk(Push(s, e, bound), events + [e])
  {
    SuffixSnoc(events, e, s.start);
    Assoc(s.delivered, s.waiting, [e]);
  }

  lemma PushOk(s: Stream, events: seq<Event>, e: Event, bound: nat)
    requires StreamOk(s, events, bound) && bound >= 1
    ensures StreamOk(Push(s, e, bound), events + [e], bound)
  {
    PushQueue(s, events, e, bound);
    PushDelivered(s, events, e, bound);
    PushComplete(s, events, e, bound);
  }

  lemma SameEmit(s: State, payload: nat, attributes: set<string>, events: seq<Event>, streams: map<StreamId, Stream>)
    requires attributes <= s.allowlist
    requires events == s.events + [NextEvent(s, payload, attributes)] && streams.Keys == s.streams.Keys
    requires forall id | id in s.streams ::
               streams[id] == Push(s.streams[id], NextEvent(s, payload, attributes), s.bound)
    ensures State(s.bound, s.allowlist, events, s.sequence + 1, streams) == Emit(s, payload, attributes)
  {
  }

  lemma EmitKeeps(s: State, payload: nat, attributes: set<string>)
    requires Good(s)
    ensures Good(Emit(s, payload, attributes))
  {
    if attributes <= s.allowlist {
      var e := NextEvent(s, payload, attributes);
      forall id | id in s.streams ensures StreamOk(Push(s.streams[id], e, s.bound), s.events + [e], s.bound) {
        PushOk(s.streams[id], s.events, e, s.bound);
      }
    }
  }

  lemma SubscribeKeeps(s: State, id: StreamId)
    requires Good(s)
    ensures Good(Subscribe(s, id))
  {
  }

  lemma DeliverQueue(s: Stream, events: seq<Event>, bound: nat)
    requires QueueOk(s, events, bound) && s.waiting != []
    ensures QueueOk(Deliver(s), events, bound)
  {
    assert events[Head(s)..][1..] == events[Head(s) + 1..];
  }

  lemma PlacedSnoc(d: seq<Event>, events: seq<Event>, lo: nat, hi: nat, h: nat)
    requires AllPlaced(d, events, lo, hi) && lo <= h && hi <= h < |events|
    ensures AllPlaced(d + [events[h]], events, lo, h + 1)
  {
    forall i | 0 <= i < |d| + 1 ensures Placed((d + [events[h]])[i], events, lo, h + 1) {
      if i < |d| {
        assert Placed(d[i], events, lo, hi);
        var k :| lo <= k < hi && k < |events| && events[k] == d[i];
        assert events[k] == (d + [events[h]])[i];
      }
    }
  }

  lemma RisingSnoc(d: seq<Event>, events: seq<Event>, lo: nat, hi: nat, h: nat)
    requires Rising(d) && Rising(events) && AllPlaced(d, events, lo, hi) && hi <= h < |events|
    ensures Rising(d + [events[h]])
  {
    forall i | 0 <= i < |d| ensures d[i].sequence < events[h].sequence {
      assert Placed(d[i], events, lo, hi);
    }
  }

  lemma DeliverDelivered(s: Stream, events: seq<Event>, bound: nat)
    requires QueueOk(s, events, bound) && DeliveredOk(s, events) && Rising(events) && s.waiting != []
    ensures DeliveredOk(Deliver(s), events)
  {
    assert s.waiting[0] == events[Head(s)];
    PlacedSnoc(s.delivered, events, s.start, s.served, Head(s));
    RisingSnoc(s.delivered, events, s.start, s.served, Head(s));
  }

  lemma DeliverComplete(s: Stream, events: seq<Event>)
    requires CompleteOk(s, events) && s.waiting != []
    ensures CompleteOk(Deliver(s), events)
  {
    assert Deliver(s).delivered + Deliver(s).waiting == s.delivered + s.waiting;
  }

  lemma DeliverKeeps(s: State, id: StreamId)
    requires Good(s) && id in s.streams && s.streams[id].waiting != []
    ensures Good(s.(streams := s.streams[id := Deliver(s.streams[id])]))
  {
    DeliverQueue(s.streams[id], s.events, s.bound);
    DeliverDelivered(s.streams[id], s.events, s.bound);
    DeliverComplete(s.streams[id], s.events);
  }

  lemma UnsubscribeKeeps(s: State, id: StreamId)
    requires Good(s)
    ensures Good(Unsubscribe(s, id))
  {
  }

  // ----- every interleaving -----

  datatype Action =
    | EmitAction(payload: nat, attributes: set<string>)
    | OpenAction(id: StreamId)
    | ReadAction(id: StreamId)
    | CloseAction(id: StreamId)

  /** Opening takes a new queue; reading an empty or closed stream changes nothing. */
  function Act(s: State, a: Action): State {
    match a
    case EmitAction(p, attributes) => Emit(s, p, attributes)
    case OpenAction(id) => if id in s.streams then s else Subscribe(s, id)
    case ReadAction(id) =>
      if id in s.streams && s.streams[id].waiting != [] then s.(streams := s.streams[id := Deliver(s.streams[id])])
      else s
    case CloseAction(id) => Unsubscribe(s, id)
  }

  function Run(s: State, actions: seq<Action>): State {
    if actions == [] then s else Act(Run(s, actions[..|actions| - 1]), actions[|actions| - 1])
  }

  lemma {:induction false} AlwaysGood(s: State, actions: seq<Action>)
    requires Good(s)
    ensures Good(Run(s, actions))
    ensures Run(s, actions).bound == s.bound && Run(s, actions).allowlist == s.allowlist
  {
    if actions == [] {
    } else {
      var before, last := Run(s, actions[..|actions| - 1]), actions[|actions| - 1];
      AlwaysGood(s, actions[..|actions| - 1]);
      match last {
        case EmitAction(p, attributes) => EmitKeeps(before, p, attributes);
        case OpenAction(id) => SubscribeKeeps(before, id);
        case ReadAction(id) =>
          if id in before.streams && before.streams[id].waiting != [] { DeliverKeeps(before, id); }
        case CloseAction(id) => UnsubscribeKeeps(before, id);
      }
    }
  }

  /** In every interleaving, refused emits included, the numbers of the transcript rise strictly; a queue is the
      contiguous end of the transcript, within its bound; deliveries rise strictly and come from the transcript
      since the subscription; and every event since then was delivered, waits, or was dropped. */
  lemma StreamFacts(bound: nat, allowlist: set<string>, actions: seq<Action>, id: StreamId)
    requires bound >= 1 && id in Run(Start(bound, allowlist), actions).streams
    ensures var s := Run(Start(bound, allowlist), actions);
            var q := s.streams[id];
            && Rising(s.events) && Rising(q.delivered)
            && |q.waiting| <= bound && |q.waiting| <= |s.events|
            && q.waiting == s.events[|s.events| - |q.waiting|..]
            && q.start <= |s.events| && AllPlaced(q.delivered, s.events, q.start, |s.events| - |q.waiting|)
            && |q.delivered| + |q.waiting| + q.dropped == |s.events| - q.start
  {
    var s := Run(Start(bound, allowlist), actions);
    AlwaysGood(Start(bound, allowlist), actions);
    var q := s.streams[id];
    assert StreamOk(q, s.events, bound);
    PlacedLater(q.delivered, s.events, q.start, q.served, Head(q));
  }

  lemma PlacedLater(d: seq<Event>, events: seq<Event>, lo: nat, hi: nat, later: nat)
    requires AllPlaced(d, events, lo, hi) && hi <= later
    ensures AllPlaced(d, events, lo, later)
  {
    forall i | 0 <= i < |d| ensures Placed(d[i], events, lo, later) {
      assert Placed(d[i], events, lo, hi);
    }
  }

  /** A drained stream delivered everything since it subscribed, in order, exactly when its queue never overflowed. */
  lemma DrainedIsComplete(bound: nat, allowlist: set<string>, actions: seq<Action>, id: StreamId)
    requires bound >= 1 && id in Run(Start(bound, allowlist), actions).streams
    requires Run(Start(bound, allowlist), actions).streams[id].waiting == []
    ensures var s := Run(Start(bound, allowlist), actions);
            var q := s.streams[id];
            q.start <= |s.events| && (q.dropped == 0 <==> q.delivered == s.events[q.start..])
  {
    AlwaysGood(Start(bound, allowlist), actions);
    var q := Run(Start(bound, allowlist), actions).streams[id];
    assert q.delivered + q.waiting == q.delivered;
  }

  /** The next delivery is the event at the place the stream was served up to, or, when more than the bound are
      outstanding, the oldest that the queue still holds; a stream is served up to its last delivered event. */
  ghost predicate DeliversNext(q: Stream, events: seq<Event>, bound: nat) {
    && bound >= 1 && q.waiting != [] && q.served < |events|
    && q.waiting[0] == events[if |events| - q.served <= bound then q.served else |events| - bound]
    && if q.delivered == [] then q.served == q.start
       else q.served > 0 && events[q.served - 1] == q.delivered[|q.delivered| - 1]
  }

  lemma HeadIsNext(q: Stream, events: seq<Event>, bound: nat)
    requires bound >= 1 && QueueOk(q, events, bound) && DeliveredOk(q, events) && q.waiting != []
    ensures DeliversNext(q, events, bound)
  {
    assert q.waiting[0] == events[Head(q)];
  }

  lemma NextDelivery(bound: nat, allowlist: set<string>, actions: seq<Action>, id: StreamId)
    requires bound >= 1 && id in Run(Start(bound, allowlist), actions).streams
    requires Run(Start(bound, allowlist), actions).streams[id].waiting != []
    ensures var s := Run(Start(bound, allowlist), actions);
            DeliversNext(s.streams[id], s.events, bound)
  {
    var s := Run(Start(bound, allowlist), actions);
    AlwaysGood(Start(bound, allowlist), actions);
    assert StreamOk(s.streams[id], s.events, bound);
    HeadIsNext(s.streams[id], s.events, bound);
  }

  // ----- the numbering -----

  predicate Accepted(a: Action, allowlist: set<string>) { a.EmitAction? && a.attributes <= allowlist }

  predicate Refused(a: Action, allowlist: set<string>) { a.EmitAction? && !(a.attributes <= allowlist) }

  ghost predicate Numbered(events: seq<Event>) { forall i | 0 <= i < |events| :: events[i].sequence == i + 1 }

  /** How many emits were refused. */
  function Refusals(actions: seq<Action>, allowlist: set<string>): nat {
    if actions == [] then 0
    else
      Refusals(actions[..|actions| - 1], allowlist) + if Refused(actions[|actions| - 1], allowlist) then 1 else 0
  }

  ghost predicate SomeRefused(actions: seq<Action>, allowlist: set<string>) {
    exists i :: 0 <= i < |actions| && Refused(actions[i], allowlist)
  }

  /** A refused emit precedes an accepted one. */
  ghost predicate RefusedBeforeAccepted(actions: seq<Action>, allowlist: set<string>) {
    exists i, j :: 0 <= i < j < |actions| && Refused(actions[i], allowlist) && Accepted(actions[j], allowlist)
  }

  lemma {:induction false} RefusalsCount(actions: seq<Action>, allowlist: set<string>)
    ensures Refusals(actions, allowlist) > 0 <==> SomeRefused(actions, allowlist)
  {
    if actions == [] {
    } else {
      var front, last := actions[..|actions| - 1], actions[|actions| - 1];
      RefusalsCount(front, allowlist);
      if SomeRefused(front, allowlist) {
        var i :| 0 <= i < |front| && Refused(front[i], allowlist);
        assert Refused(actions[i], allowlist);
      }
      if Refused(last, allowlist) {
        assert Refused(actions[|actions| - 1], allowlist);
      }
      if SomeRefused(actions, allowlist) && !Refused(last, allowlist) {
        var i :| 0 <= i < |actions| && Refused(actions[i], allowlist);
        assert Refused(front[i], allowlist);
      }
    }
  }

  lemma OrderSnoc(front: seq<Action>, last: Action, allowlist: set<string>)
    ensures RefusedBeforeAccepted(front + [last], allowlist) <==>
              RefusedBeforeAccepted(front, allowlist) || (SomeRefused(front, allowlist) && Accepted(last, allowlist))
  {
    var all := front + [last];
    if RefusedBeforeAccepted(front, allowlist) {
      var i, j :| 0 <= i < j < |front| && Refused(front[i], allowlist) && Accepted(front[j], allowlist);
      assert Refused(all[i], allowlist) && Accepted(all[j], allowlist);
    }
    if SomeRefused(front, allowlist) && Accepted(last, allowlist) {
      var i :| 0 <= i < |front| && Refused(front[i], allowlist);
      assert Refused(all[i], allowlist) && Accepted(all[|front|], allowlist);
    }
    if RefusedBeforeAccepted(all, allowlist) {
      var i, j :| 0 <= i < j < |all| && Refused(all[i], allowlist) && Accepted(all[j], allowlist);
      assert Refused(front[i], allowlist);
      assert j < |front| ==> Accepted(front[j], allowlist);
    }
  }

  /** Every refused emit leaves a gap: the last number given out is ahead by one for each. */
  lemma {:induction false} SequenceCountsRefusals(bound: nat, allowlist: set<string>, actions: seq<Action>)
    ensures var s := Run(Start(bound, allowlist), actions);
            s.allowlist == allowlist && s.sequence == |s.events| + Refusals(actions, allowlist)
  {
    if actions == [] {
    } else {
      SequenceCountsRefusals(bound, allowlist, actions[..|actions| - 1]);
    }
  }

  lemma NumberedSnoc(events: seq<Event>, e: Event)
    ensures Numbered(events + [e]) <==> Numbered(events) && e.sequence == |events| + 1
  {
    if Numbered(events + [e]) {
      forall i | 0 <= i < |events| ensures events[i].sequence == i + 1 {
        assert (events + [e])[i] == events[i];
      }
      assert (events + [e])[|events|] == e;
    }
  }

  /** The transcript of a run is numbered 1..n exactly when no refused emit precedes an accepted one. */
  lemma {:induction false} NumberedIff(bound: nat, allowlist: set<string>, actions: seq<Action>)
    ensures Numbered(Run(Start(bound, allowlist), actions).events) <==> !RefusedBeforeAccepted(actions, allowlist)
  {
    if actions == [] {
    } else {
      var front, last := actions[..|actions| - 1], actions[|actions| - 1];
      var before := Run(Start(bound, allowlist), front);
      assert actions == front + [last];
      NumberedIff(bound, allowlist, front);
      SequenceCountsRefusals(bound, allowlist, front);
      RefusalsCount(front, allowlist);
      OrderSnoc(front, last, allowlist);
      if Accepted(last, allowlist) {
        NumberedSnoc(before.events, NextEvent(before, last.payload, last.attributes));
      }
    }
  }

  /** One refused emit and then an accepted one: the transcript starts at number two. */
  lemma RefusedEmitLeavesGap(bound: nat, allowlist: set<string>, name: string)
    requires name !in allowlist
    ensures Run(Start(bound, allowlist), [EmitAction(0, {name}), EmitAction(0, {})]).events == [Event(2, 0, {})]
  {
    var one, two := [EmitAction(0, {name})], [EmitAction(0, {name}), EmitAction(0, {})];
    var none: seq<Action> := [];
    assert two[..1] == one && one[..0] == none;
    assert name in {name};
    assert Run(Start(bound, allowlist), one) == Start(bound, allowlist).(sequence := 1);
  }

  // ----- what the transcript holds -----

  /** What the emits of a run asked for, in order, without those that name an attribute outside the allowlist. */
  ghost function Asked(actions: seq<Action>, allowlist: set<string>): seq<(nat, set<string>)> {
    if actions == [] then []
    else
      Asked(actions[..|actions| - 1], allowlist)
      + match actions[|actions| - 1]
        case EmitAction(payload, attributes) =>
          if forall name | name in attributes :: name in allowlist then [(payload, attributes)] else []
        case _ => []
  }

  /** The transcript holds exactly the allowed emits of the run, in order, payload and attributes unchanged. */
  lemma {:induction false} TranscriptIsAsked(bound: nat, allowlist: set<string>, actions: seq<Action>)
    ensures var events, asked := Run(Start(bound, allowlist), actions).events, Asked(actions, allowlist);
            && |events| == |asked|
            && forall i | 0 <= i < |asked| :: (events[i].payload, events[i].attributes) == asked[i]
    ensures Run(Start(bound, allowlist), actions).allowlist == allowlist
  {
    if actions != [] {
      TranscriptIsAsked(bound, allowlist, actions[..|actions| - 1]);
    }
  }
}
