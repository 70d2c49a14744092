/** The fault script applied in front of the support repository. */
module FaultScript {
  import opened Ordering

  datatype FaultKind = Timeout | TransientError | Delay | MalformedResponse

  /** Declared arguments: none, a normalized text, or a mapping that cannot be normalized. */
  datatype Declared = AnyArguments | Exactly(text: string) | NotNormalizable

  datatype Entry = Entry(kind: FaultKind, tool: string, arguments: Declared, repeating: bool)

  /** One repository call under its tool name; `arguments` is absent when it cannot be normalized. */
  datatype Call = Call(tool: string, arguments: Option<string>)

  predicate Matches(e: Entry, c: Call) {
    && e.tool == c.tool
    && match e.arguments
       case AnyArguments => true
       case Exactly(text) => c.arguments == Some(text)
       case NotNormalizable => false
  }

  /** The first entry from `i` on that matches and is still available. */
  ghost function NextFrom(entries: seq<Entry>, i: nat, consumed: set<nat>, c: Call): Option<nat>
    requires i <= |entries|
    decreases |entries| - i
  {
    if i == |entries| then None
    else if Matches(entries[i], c) && (entries[i].repeating || i !in consumed) then Some(i)
    else NextFrom(entries, i + 1, consumed, c)
  }

  ghost function Next(entries: seq<Entry>, consumed: set<nat>, c: Call): Option<nat> {
    NextFrom(entries, 0, consumed, c)
  }

  ghost function Consume(entries: seq<Entry>, consumed: set<nat>, answer: Option<nat>): set<nat>
    requires answer.Some? ==> answer.value < |entries|
  {
    if answer.Some? && !entries[answer.value].repeating then consumed + {answer.value} else consumed
  }

  lemma {:induction false} NextFromFacts(entries: seq<Entry>, i: nat, consumed: set<nat>, c: Call)
    requires i <= |entries|
    ensures var r := NextFrom(entries, i, consumed, c);
            && (r.Some? ==> i <= r.value < |entries| && Matches(entries[r.value], c)
                            && (entries[r.value].repeating || r.value !in consumed))
            && forall j | i <= j < (if r.Some? then r.value else |entries|) ::
                 !(Matches(entries[j], c) && (entries[j].repeating || j !in consumed))
    decreases |entries| - i
  {
    if i < |entries| {
      NextFromFacts(entries, i + 1, consumed, c);
    }
  }

  /** What a faulted call does: it goes through, or it raises. */
  datatype Effect = Proceeds | RaisesTimeout | RaisesConnectionError | RaisesMalformed

  function EffectOf(kind: FaultKind): Effect {
    match kind
    case Delay => Proceeds
    case Timeout => RaisesTimeout
    case TransientError => RaisesConnectionError
    case MalformedResponse => RaisesMalformed
  }

  ghost function EffectOfAnswer(entries: seq<Entry>, answer: Option<nat>): Effect
    requires answer.Some? ==> answer.value < |entries|
  {
    if answer.None? then Proceeds else EffectOf(entries[answer.value].kind)
  }

  /** The entry answers the call: its tool, and no declared arguments or the call's own, and it may still fire. */
  ghost predicate Available(entries: seq<Entry>, consumed: set<nat>, c: Call, i: nat) {
    && i < |entries| && entries[i].tool == c.tool
    && (entries[i].arguments == AnyArguments
        || exists text :: entries[i].arguments == Exactly(text) && c.arguments == Some(text))
    && (i !in consumed || entries[i].repeating)
  }

  /** Entry `i` is the first one available, and of this kind. */
  ghost predicate Draws(entries: seq<Entry>, consumed: set<nat>, c: Call, i: nat, kind: FaultKind) {
    && Available(entries, consumed, c, i) && entries[i].kind == kind
    && forall j: nat | j < i :: !Available(entries, consumed, c, j)
  }

  /** Some available entry of this kind is the first. */
  ghost predicate DrawsKind(entries: seq<Entry>, consumed: set<nat>, c: Call, kind: FaultKind) {
    exists i: nat :: Draws(entries, consumed, c, i, kind)
  }

  lemma AvailableIff(entries: seq<Entry>, consumed: set<nat>, c: Call, i: nat)
    requires i < |entries|
    ensures Available(entries, consumed, c, i)
            <==> Matches(entries[i], c) && (entries[i].repeating || i !in consumed)
  {
  }

  lemma NextIsFirst(entries: seq<Entry>, consumed: set<nat>, c: Call)
    ensures var answer := Next(entries, consumed, c);
            && (answer.Some? ==> answer.value < |entries|
                                 && Draws(entries, consumed, c, answer.value, entries[answer.value].kind))
            && (answer.None? ==> forall i: nat :: !Available(entries, consumed, c, i))
  {
    NextFromFacts(entries, 0, consumed, c);
    forall i: nat | i < |entries|
      ensures Available(entries, consumed, c, i)
              <==> Matches(entries[i], c) && (entries[i].repeating || i !in consumed)
    {
      AvailableIff(entries, consumed, c, i);
    }
  }

  /** What a call comes to: a timeout, a connection error or a malformed response exactly when the first entry
      available to it is of that kind, and otherwise it goes through. */
  lemma EffectMeans(entries: seq<Entry>, consumed: set<nat>, c: Call)
    ensures var answer := Next(entries, consumed, c);
            && (answer.Some? ==> answer.value < |entries|)
            && var effect := EffectOfAnswer(entries, answer);
               && (effect == RaisesTimeout <==> DrawsKind(entries, consumed, c, Timeout))
               && (effect == RaisesConnectionError <==> DrawsKind(entries, consumed, c, TransientError))
               && (effect == RaisesMalformed <==> DrawsKind(entries, consumed, c, MalformedResponse))
               && (effect == Proceeds <==>
                     DrawsKind(entries, consumed, c, Delay) || forall i: nat :: !Available(entries, consumed, c, i))
  {
    NextIsFirst(entries, consumed, c);
    var answer := Next(entries, consumed, c);
    forall i: nat, kind | Draws(entries, consumed, c, i, kind) ensures answer == Some(i) {
    }
  }

  /** The wrapped repository, reduced to the calls it receives. */
  class Backend {
    var calls: seq<Call>

    constructor ()
      ensures calls == []
    {
      calls := [];
    }

    method Invoke(c: Call)
      modifies this
      ensures calls == old(calls) + [c]
    {
      calls := calls + [c];
    }
  }

  class FaultInjectingRepository {
    const entries: seq<Entry>
    const backend: Backend
    var consumed: set<nat>

    constructor (entries: seq<Entry>, backend: Backend)
      ensures this.entries == entries && this.backend == backend && consumed == {}
    {
      this.entries := entries;
      this.backend := backend;
      consumed := {};
    }

    method NextEntry(c: Call) returns (answer: Option<nat>)
      modifies this`consumed
      ensures answer == Next(entries, old(consumed), c)
      ensures answer.Some? ==> answer.value < |entries|
      ensures consumed == Consume(entries, old(consumed), answer)
    {
      NextFromFacts(entries, 0, consumed, c);
      for i := 0 to |entries|
        invariant consumed == old(consumed)
        invariant Next(entries, consumed, c) == NextFrom(entries, i, consumed, c)
      {
        if !Matches(entries[i], c) {
          continue;
        }
        if entries[i].repeating || i !in consumed {
          if !entries[i].repeating {
            consumed := consumed + {i};
          }
          return Some(i);
        }
      }
      return None;
    }

    /** Runs one repository operation behind the script. */
    method Invoke(c: Call) returns (effect: Effect)
      modifies this`consumed, backend
      ensures var answer := Next(entries, old(consumed), c);
              && (answer.Some? ==> answer.value < |entries|)
              && effect == EffectOfAnswer(entries, answer)
              && consumed == Consume(entries, old(consumed), answer)
      ensures backend.calls == old(backend.calls) + (if effect.Proceeds? then [c] else [])
    {
      var answer := NextEntry(c);
      if answer.Some? {
        effect := EffectOf(entries[answer.value].kind);
        if !effect.Proceeds? {
          return;
        }
      }
      backend.Invoke(c);
      effect := Proceeds;
    }

    /** Reading a ticket bypasses the script. */
    method GetTicketById(id: string)
      modifies backend
      ensures backend.calls == old(backend.calls) + [Call("get_ticket", Some(id))]
    {
      backend.Invoke(TicketCall(id));
    }
  }

  // ----- whole runs -----

  /** The entries that answer a sequence of calls, from a state of the script. */
  ghost function Answers(entries: seq<Entry>, consumed: set<nat>, calls: seq<Call>): seq<Option<nat>>
    decreases |calls|
  {
    if calls == [] then []
    else
      var answer := Next(entries, consumed, calls[0]);
      NextFromFacts(entries, 0, consumed, calls[0]);
      [answer] + Answers(entries, Consume(entries, consumed, answer), calls[1..])
  }

  lemma {:induction false} AnswersMatch(entries: seq<Entry>, consumed: set<nat>, calls: seq<Call>, i: nat)
    requires i < |calls|
    ensures |Answers(entries, consumed, calls)| == |calls|
    ensures var a := Answers(entries, consumed, calls)[i];
            a.Some? ==> a.value < |entries| && Matches(entries[a.value], calls[i])
                        && (entries[a.value].repeating || a.value !in consumed)
    decreases |calls|
  {
    AnswersLength(entries, consumed, calls);
    NextFromFacts(entries, 0, consumed, calls[0]);
    if i > 0 {
      AnswersMatch(entries, Consume(entries, consumed, Next(entries, consumed, calls[0])), calls[1..], i - 1);
    }
  }

  lemma {:induction false} AnswersLength(entries: seq<Entry>, consumed: set<nat>, calls: seq<Call>)
    ensures |Answers(entries, consumed, calls)| == |calls|
    decreases |calls|
  {
    if calls != [] {
      NextFromFacts(entries, 0, consumed, calls[0]);
      AnswersLength(entries, Consume(entries, consumed, Next(entries, consumed, calls[0])), calls[1..]);
    }
  }

  /** A non-repeat entry fires at most once in any run. */
  lemma {:induction false} FiresOnce(entries: seq<Entry>, consumed: set<nat>, calls: seq<Call>, i: nat, j: nat)
    requires i < j < |calls|
    ensures |Answers(entries, consumed, calls)| == |calls|
    ensures var answers := Answers(entries, consumed, calls);
            answers[i].Some? && answers[i] == answers[j]
            ==> answers[i].value < |entries| && entries[answers[i].value].repeating
    decreases |calls|
  {
    AnswersLength(entries, consumed, calls);
    NextFromFacts(entries, 0, consumed, calls[0]);
    var answer := Next(entries, consumed, calls[0]);
    var consumed' := Consume(entries, consumed, answer);
    if i == 0 {
      AnswersMatch(entries, consumed', calls[1..], j - 1);
    } else {
      FiresOnce(entries, consumed', calls[1..], i - 1, j - 1);
    }
  }

  // ----- what the wrapped repository sees in a run -----

  /** A call behind the script, or one that bypasses it. */
  datatype Operation = Scripted(call: Call) | GetTicket(id: string)

  function TicketCall(id: string): Call { Call("get_ticket", Some(id)) }

  /** The calls that are put to the script. */
  function ScriptedCalls(ops: seq<Operation>): seq<Call> {
    if ops == [] then []
    else (if ops[0].Scripted? then [ops[0].call] else []) + ScriptedCalls(ops[1..])
  }

  /** The operations that reach the repository, given the answers to the scripted ones: those that drew no
      entry or a delay, and those that bypass the script. */
  ghost function Reaching(entries: seq<Entry>, ops: seq<Operation>, answers: seq<Option<nat>>): seq<Call>
    requires |answers| == |ScriptedCalls(ops)|
  {
    if ops == [] then []
    else if ops[0].GetTicket? then [TicketCall(ops[0].id)] + Reaching(entries, ops[1..], answers)
    else
      var goesThrough := answers[0].None? || (answers[0].value < |entries| && entries[answers[0].value].kind.Delay?);
      (if goesThrough then [ops[0].call] else []) + Reaching(entries, ops[1..], answers[1..])
  }

  /** What one operation lets through, and the script state it leaves. */
  ghost function Passing(entries: seq<Entry>, consumed: set<nat>, op: Operation): (seq<Call>, set<nat>) {
    match op
    case GetTicket(id) => ([TicketCall(id)], consumed)
    case Scripted(c) =>
      var answer := Next(entries, consumed, c);
      NextFromFacts(entries, 0, consumed, c);
      (if EffectOfAnswer(entries, answer).Proceeds? then [c] else [], Consume(entries, consumed, answer))
  }

  ghost function Seen(entries: seq<Entry>, consumed: set<nat>, ops: seq<Operation>): seq<Call>
    decreases |ops|
  {
    if ops == [] then []
    else
      var (calls, consumed') := Passing(entries, consumed, ops[0]);
      calls + Seen(entries, consumed', ops[1..])
  }

  lemma {:induction false} SeenSnoc(entries: seq<Entry>, consumed: set<nat>, ops: seq<Operation>, op: Operation)
    ensures StateAfter(entries, consumed, ops + [op])
         == Passing(entries, StateAfter(entries, consumed, ops), op).1
    ensures Seen(entries, consumed, ops + [op])
         == Seen(entries, consumed, ops) + Passing(entries, StateAfter(entries, consumed, ops), op).0
    decreases |ops|
  {
    if ops == [] {
      var none: seq<Operation> := [];
      assert ([] + [op])[1..] == none && [] + [op] == [op];
    } else {
      var (calls, consumed') := Passing(entries, consumed, ops[0]);
      SeenSnoc(entries, consumed', ops[1..], op);
      assert (ops + [op])[0] == ops[0] && (ops + [op])[1..] == ops[1..] + [op];
      Assoc(calls, Seen(entries, consumed', ops[1..]),
            Passing(entries, StateAfter(entries, consumed', ops[1..]), op).0);
    }
  }

  ghost function StateAfter(entries: seq<Entry>, consumed: set<nat>, ops: seq<Operation>): set<nat>
    decreases |ops|
  {
    if ops == [] then consumed else StateAfter(entries, Passing(entries, consumed, ops[0]).1, ops[1..])
  }

  method RunOperation(repository: FaultInjectingRepository, op: Operation)
    modifies repository`consumed, repository.backend
    ensures var (calls, consumed') := Passing(repository.entries, old(repository.consumed), op);
            repository.backend.calls == old(repository.backend.calls) + calls && repository.consumed == consumed'
  {
    match op {
      case GetTicket(id) => repository.GetTicketById(id);
      case Scripted(call) => var _ := repository.Invoke(call);
    }
  }

  /** A run of operations against the wrapped repository. */
  method RunOperations(repository: FaultInjectingRepository, ops: seq<Operation>)
    modifies repository`consumed, repository.backend
    ensures repository.backend.calls
         == old(repository.backend.calls) + Seen(repository.entries, old(repository.consumed), ops)
  {
    for i := 0 to |ops|
      invariant repository.consumed == StateAfter(repository.entries, old(repository.consumed), ops[..i])
      invariant repository.backend.calls
             == old(repository.backend.calls) + Seen(repository.entries, old(repository.consumed), ops[..i])
    {
      SeenSnoc(repository.entries, old(repository.consumed), ops[..i], ops[i]);
      assert ops[..i + 1] == ops[..i] + [ops[i]];
      RunOperation(repository, ops[i]);
    }
    assert ops[..|ops|] == ops;
  }

  /** The wrapped repository sees exactly the operations that bypass the script and the calls that drew no
      entry or a delay, in order. */
  lemma {:induction false} SeenIsReaching(entries: seq<Entry>, consumed: set<nat>, ops: seq<Operation>)
    ensures |Answers(entries, consumed, ScriptedCalls(ops))| == |ScriptedCalls(ops)|
    ensures Seen(entries, consumed, ops) == Reaching(entries, ops, Answers(entries, consumed, ScriptedCalls(ops)))
    decreases |ops|
  {
    AnswersLength(entries, consumed, ScriptedCalls(ops));
    if ops == [] {
    } else if ops[0].GetTicket? {
      assert ScriptedCalls(ops) == ScriptedCalls(ops[1..]);
      SeenIsReaching(entries, consumed, ops[1..]);
    } else {
      var c, rest := ops[0].call, ScriptedCalls(ops[1..]);
      assert ScriptedCalls(ops) == [c] + rest && ([c] + rest)[1..] == rest;
      NextFromFacts(entries, 0, consumed, c);
      var consumed' := Consume(entries, consumed, Next(entries, consumed, c));
      SeenIsReaching(entries, consumed', ops[1..]);
      AnswersCons(entries, consumed, c, rest);
    }
  }

  lemma AnswersCons(entries: seq<Entry>, consumed: set<nat>, c: Call, rest: seq<Call>)
    ensures var answer := Next(entries, consumed, c);
            && (answer.Some? ==> answer.value < |entries|)
            && Answers(entries, consumed, [c] + rest)
               == [answer] + Answers(entries, Consume(entries, consumed, answer), rest)
  {
    NextFromFacts(entries, 0, consumed, c);
    assert ([c] + rest)[1..] == rest;
  }

  // ----- which entry answers the n-th call of one kind -----

  /** The `n`-th matching entry from `i` on, where the first repeat entry answers forever. */
  ghost function NthMatching(entries: seq<Entry>, i: nat, c: Call, n: nat): Option<nat>
    requires i <= |entries|
    decreases |entries| - i
  {
    if i == |entries| then None
    else if !Matches(entries[i], c) then NthMatching(entries, i + 1, c, n)
    else if entries[i].repeating || n == 0 then Some(i)
    else NthMatching(entries, i + 1, c, n - 1)
  }

  /** The entries the first `n` calls use up. */
  ghost function UsedUp(entries: seq<Entry>, i: nat, c: Call, n: nat): set<nat>
    requires i <= |entries|
    decreases |entries| - i
  {
    if i == |entries| || n == 0 then {}
    else if !Matches(entries[i], c) then UsedUp(entries, i + 1, c, n)
    else if entries[i].repeating then {}
    else {i} + UsedUp(entries, i + 1, c, n - 1)
  }

  /** An entry that answers every further call `c`. */
  predicate AnswersForever(e: Entry, c: Call) { Matches(e, c) && e.repeating }

  /** No entry from `i` up to `j` answers `c` forever. */
  ghost predicate Unblocked(entries: seq<Entry>, i: nat, j: nat, c: Call) {
    forall k | i <= k < j && k < |entries| :: !AnswersForever(entries[k], c)
  }

  /** `consumed` agrees with `used` on the entries that `c` can still come to, from `i` on. */
  ghost predicate AgreesOn(entries: seq<Entry>, i: nat, c: Call, consumed: set<nat>, used: set<nat>) {
    forall j | i <= j < |entries| && Matches(entries[j], c) && !entries[j].repeating && Unblocked(entries, i, j, c) ::
      j in consumed <==> j in used
  }

  lemma {:induction false} UsedUpFrom(entries: seq<Entry>, i: nat, c: Call, n: nat)
    requires i <= |entries|
    ensures forall j | j in UsedUp(entries, i, c, n) :: i <= j < |entries|
    decreases |entries| - i
  {
    if i < |entries| && n > 0 {
      UsedUpFrom(entries, i + 1, c, n);
      UsedUpFrom(entries, i + 1, c, n - 1);
    }
  }

  /** The first available entry is the `n`-th matching one, and taking it advances to `n + 1`. */
  lemma {:induction false} NextIsNth(entries: seq<Entry>, i: nat, c: Call, n: nat, consumed: set<nat>)
    requires i <= |entries| && AgreesOn(entries, i, c, consumed, UsedUp(entries, i, c, n))
    ensures NextFrom(entries, i, consumed, c) == NthMatching(entries, i, c, n)
    ensures var r := NthMatching(entries, i, c, n);
            && (r.Some? ==> i <= r.value < |entries|)
            && UsedUp(entries, i, c, n + 1)
               == UsedUp(entries, i, c, n) + (if r.Some? && !entries[r.value].repeating then {r.value} else {})
    decreases |entries| - i
  {
    if i < |entries| {
      UsedUpFrom(entries, i + 1, c, n);
      if !Matches(entries[i], c) {
        NextIsNth(entries, i + 1, c, n, consumed);
      } else if !entries[i].repeating && n > 0 {
        UsedUpFrom(entries, i + 1, c, n - 1);
        NextIsNth(entries, i + 1, c, n - 1, consumed);
      }
    }
  }

  function CountOf(calls: seq<Call>, c: Call): nat {
    if calls == [] then 0 else (if calls[0] == c then 1 else 0) + CountOf(calls[1..], c)
  }

  /** Every one-time entry that `c` shares with calls of other arguments comes after an entry that answers
      `c` forever. */
  predicate SharesNone(entries: seq<Entry>, c: Call) {
    forall j | 0 <= j < |entries| && entries[j].tool == c.tool && entries[j].arguments.AnyArguments?
               && !entries[j].repeating ::
      exists k :: 0 <= k < j && AnswersForever(entries[k], c)
  }

  /** A call of another kind does not take an entry that `c` can come to. */
  lemma OthersTakeNothing(entries: seq<Entry>, c: Call, d: Call, j: nat)
    requires SharesNone(entries, c) && d != c && j < |entries|
    requires Matches(entries[j], c) && Matches(entries[j], d) && !entries[j].repeating
    ensures !Unblocked(entries, 0, j, c)
  {
  }

  lemma AgreesAfter(entries: seq<Entry>, consumed: set<nat>, c: Call, d: Call, n: nat)
    requires SharesNone(entries, c) && AgreesOn(entries, 0, c, consumed, UsedUp(entries, 0, c, n))
    ensures var answer := Next(entries, consumed, d);
            && (answer.Some? ==> answer.value < |entries|)
            && AgreesOn(entries, 0, c, Consume(entries, consumed, answer),
                        UsedUp(entries, 0, c, if d == c then n + 1 else n))
  {
    var answer := Next(entries, consumed, d);
    NextFromFacts(entries, 0, consumed, d);
    NextIsNth(entries, 0, c, n, consumed);
    if d != c && answer.Some? && Matches(entries[answer.value], c) && !entries[answer.value].repeating {
      OthersTakeNothing(entries, c, d, answer.value);
    }
  }

  lemma {:induction false} NthFromState(entries: seq<Entry>, consumed: set<nat>, calls: seq<Call>, c: Call, n: nat,
                                        i: nat)
    requires i < |calls| && calls[i] == c && SharesNone(entries, c)
    requires AgreesOn(entries, 0, c, consumed, UsedUp(entries, 0, c, n))
    ensures |Answers(entries, consumed, calls)| == |calls|
    ensures Answers(entries, consumed, calls)[i] == NthMatching(entries, 0, c, n + CountOf(calls[..i], c))
    decreases |calls|
  {
    AnswersLength(entries, consumed, calls);
    NextFromFacts(entries, 0, consumed, calls[0]);
    if i == 0 {
      NextIsNth(entries, 0, c, n, consumed);
    } else {
      AgreesAfter(entries, consumed, c, calls[0], n);
      assert calls[..i][1..] == calls[1..][..i - 1];
      NthFromState(entries, Consume(entries, consumed, Next(entries, consumed, calls[0])), calls[1..], c,
                   if calls[0] == c then n + 1 else n, i - 1);
    }
  }

  /** The answer to call number `i` is the matching entry of its own count among equal calls. */
  ghost predicate GetsNth(entries: seq<Entry>, calls: seq<Call>, i: nat)
    requires i < |calls|
  {
    AnswersLength(entries, {}, calls);
    Answers(entries, {}, calls)[i] == NthMatching(entries, 0, calls[i], CountOf(calls[..i], calls[i]))
  }

  /** In every run, the n-th call `c` gets the n-th matching entry, up to the first repeat entry, which then
      answers every later one. */
  ghost predicate AlwaysNth(entries: seq<Entry>, c: Call) {
    forall calls, i: nat | i < |calls| && calls[i] == c :: GetsNth(entries, calls, i)
  }

  // the run in which a call with fresh arguments takes the shared entry first

  /** A text longer than every declared one. */
  function FreshText(entries: seq<Entry>): string {
    if entries == [] then "x"
    else
      var rest := FreshText(entries[1..]);
      match entries[0].arguments
      case Exactly(text) => if |text| >= |rest| then text + "x" else rest
      case _ => rest
  }

  lemma {:induction false} FreshIsLonger(entries: seq<Entry>, j: nat)
    requires j < |entries| && entries[j].arguments.Exactly?
    ensures |entries[j].arguments.text| < |FreshText(entries)|
  {
    if j > 0 {
      FreshIsLonger(entries[1..], j - 1);
    }
  }

  /** A call of the same tool that matches no entry with declared arguments, and is not `c`. */
  function FreshCall(entries: seq<Entry>, c: Call): Call {
    Call(c.tool, Some(FreshText(entries) + if c.arguments.Some? then c.arguments.value else ""))
  }

  lemma FreshMatches(entries: seq<Entry>, c: Call, j: nat)
    requires j < |entries|
    ensures FreshCall(entries, c) != c
    ensures Matches(entries[j], FreshCall(entries, c))
            <==> entries[j].tool == c.tool && entries[j].arguments.AnyArguments?
  {
    FreshNotEmpty(entries);
    if c.arguments.Some? {
      assert |FreshCall(entries, c).arguments.value| > |c.arguments.value|;
    }
    if entries[j].arguments.Exactly? {
      FreshIsLonger(entries, j);
      assert |FreshCall(entries, c).arguments.value| > |entries[j].arguments.text|;
    }
  }

  lemma {:induction false} FreshNotEmpty(entries: seq<Entry>)
    ensures |FreshText(entries)| > 0
  {
    if entries == [] {
    } else {
      FreshNotEmpty(entries[1..]);
    }
  }

  /** How many entries from `i` up to `j` match `c`. */
  function MatchesBefore(entries: seq<Entry>, i: nat, j: nat, c: Call): nat
    requires i <= j <= |entries|
    decreases j - i
  {
    if i == j then 0 else (if Matches(entries[i], c) then 1 else 0) + MatchesBefore(entries, i + 1, j, c)
  }

  lemma {:induction false} NthReaches(entries: seq<Entry>, i: nat, j: nat, c: Call)
    requires i <= j < |entries| && Matches(entries[j], c) && Unblocked(entries, i, j, c)
    ensures NthMatching(entries, i, c, MatchesBefore(entries, i, j, c)) == Some(j)
    decreases j - i
  {
    if i < j {
      NthReaches(entries, i + 1, j, c);
    }
  }

  function Times(c: Call, n: nat): seq<Call> {
    if n == 0 then [] else [c] + Times(c, n - 1)
  }

  lemma {:induction false} TimesFacts(c: Call, n: nat, i: nat)
    requires i <= n
    ensures |Times(c, n)| == n && (i < n ==> Times(c, n)[i] == c) && CountOf(Times(c, n)[..i], c) == i
  {
    if n == 0 {
    } else if i == 0 {
      TimesFacts(c, n - 1, 0);
    } else {
      TimesFacts(c, n - 1, i - 1);
      assert Times(c, n)[1..] == Times(c, n - 1);
      assert Times(c, n)[..i][1..] == Times(c, n - 1)[..i - 1];
    }
  }

  /** The first entry of the tool that matches whatever the arguments are. */
  lemma {:induction false} FirstShared(entries: seq<Entry>, tool: string, j: nat) returns (f: nat)
    requires j < |entries| && entries[j].tool == tool && entries[j].arguments.AnyArguments?
    ensures f <= j && entries[f].tool == tool && entries[f].arguments.AnyArguments?
    ensures forall k | 0 <= k < f :: !(entries[k].tool == tool && entries[k].arguments.AnyArguments?)
  {
    f := 0;
    while !(entries[f].tool == tool && entries[f].arguments.AnyArguments?)
      invariant f <= j
      invariant forall k | 0 <= k < f :: !(entries[k].tool == tool && entries[k].arguments.AnyArguments?)
      decreases j - f
    {
      f := f + 1;
    }
  }

  lemma FreshTakes(entries: seq<Entry>, c: Call, f: nat)
    requires f < |entries| && entries[f].tool == c.tool && entries[f].arguments.AnyArguments?
    requires forall k | 0 <= k < f :: !(entries[k].tool == c.tool && entries[k].arguments.AnyArguments?)
    ensures Next(entries, {}, FreshCall(entries, c)) == Some(f)
  {
    var d := FreshCall(entries, c);
    NextFromFacts(entries, 0, {}, d);
    FreshMatches(entries, c, f);
    var r := Next(entries, {}, d);
    if r.Some? {
      FreshMatches(entries, c, r.value);
    }
  }

  /** A call that takes a one-time entry leaves it to no later call. */
  lemma TakenIsGone(entries: seq<Entry>, d: Call, cs: seq<Call>, f: nat, n: nat)
    requires f < |entries| && !entries[f].repeating && Next(entries, {}, d) == Some(f) && n < |cs|
    ensures |Answers(entries, {}, [d] + cs)| == |cs| + 1 && Answers(entries, {}, [d] + cs)[n + 1] != Some(f)
  {
    AnswersCons(entries, {}, d, cs);
    AnswersMatch(entries, {f}, cs, n);
    assert {} + {f} == {f};
  }

  lemma CountAfter(d: Call, c: Call, n: nat)
    requires d != c
    ensures var calls := [d] + Times(c, n + 1);
            |calls| == n + 2 && calls[n + 1] == c && CountOf(calls[..n + 1], c) == n
  {
    var cs := Times(c, n + 1);
    TimesFacts(c, n + 1, n);
    assert ([d] + cs)[..n + 1] == [d] + cs[..n];
    assert ([d] + cs[..n])[1..] == cs[..n];
  }

  /** One call with fresh arguments, then `c` until its turn: the shared entry is gone. */
  lemma SharedIsTaken(entries: seq<Entry>, c: Call, f: nat)
    requires f < |entries| && entries[f].tool == c.tool && entries[f].arguments.AnyArguments? && !entries[f].repeating
    requires forall k | 0 <= k < f :: !(entries[k].tool == c.tool && entries[k].arguments.AnyArguments?)
    requires Unblocked(entries, 0, f, c)
    ensures !AlwaysNth(entries, c)
  {
    var n := MatchesBefore(entries, 0, f, c);
    var d, cs := FreshCall(entries, c), Times(c, n + 1);
    FreshTakes(entries, c, f);
    FreshMatches(entries, c, f);
    CountAfter(d, c, n);
    NthReaches(entries, 0, f, c);
    TakenIsGone(entries, d, cs, f, n);
    assert !GetsNth(entries, [d] + cs, n + 1);
  }

  /** The n-th call with one tool and arguments gets the n-th matching entry in every run exactly when every
      one-time entry for any arguments of the tool comes after an entry that answers the call forever. */
  lemma NthCallGetsNthEntryIff(entries: seq<Entry>, c: Call)
    ensures AlwaysNth(entries, c) <==> SharesNone(entries, c)
  {
    if SharesNone(entries, c) {
      forall calls, i: nat | i < |calls| && calls[i] == c ensures GetsNth(entries, calls, i) {
        NthFromState(entries, {}, calls, c, 0, i);
      }
    } else {
      var j :| 0 <= j < |entries| && entries[j].tool == c.tool && entries[j].arguments.AnyArguments?
               && !entries[j].repeating && !exists k :: 0 <= k < j && AnswersForever(entries[k], c);
      var f := FirstShared(entries, c.tool, j);
      assert !AnswersForever(entries[j], c);
      assert f < j ==> !AnswersForever(entries[f], c);
      SharedIsTaken(entries, c, f);
    }
  }

  /** The shortest such run: a call with other arguments takes the only entry. */
  lemma SharedEntryIsTaken()
    ensures var entries := [Entry(Timeout, "get_policy", AnyArguments, false)];
            var a, b := Call("get_policy", Some("a")), Call("get_policy", Some("b"));
            && Answers(entries, {}, [b, a]) == [Some(0), None]
            && NthMatching(entries, 0, a, 0) == Some(0)
  {
    var entries := [Entry(Timeout, "get_policy", AnyArguments, false)];
    var a, b := Call("get_policy", Some("a")), Call("get_policy", Some("b"));
    var last, none: seq<Call> := [a], [];
    assert [b, a][1..] == last && last[1..] == none;
    assert NextFrom(entries, 1, {0}, a) == None;
    assert Next(entries, {0}, a) == None;
    assert Answers(entries, {0}, none) == [];
    assert Answers(entries, {0}, last) == [None];
    assert {} + {0} == {0};
  }
}
