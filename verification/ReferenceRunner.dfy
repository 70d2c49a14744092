/** One bounded reference workflow case: plan execution, retries, approval gate and fault script. */
module ReferenceRunner {
  import opened Ordering

  /** An argument value: text, or another value with its printed form. */
  datatype Value = Text(text: string) | Other(printed: string)

  function Print(v: Value): string { if v.Text? then v.text else v.printed }

  type Args = map<string, Value>

  /** A tool either returns, raises its own timeout, or raises something else. */
  datatype ToolStep<R> = Returned(repo: R, result: string) | TimedOut(repo: R) | Raised(message: string)

  datatype Tool<!R> = Tool(name: string, safe: bool, run: (R, Args) -> ToolStep<R>)

  datatype PlanCall = PlanCall(tool: string, arguments: Args)

  datatype Plan = Plan(calls: seq<PlanCall>, gateVerified: bool)

  datatype FaultKind = Timeout | TransientError | Delay | MalformedResponse

  datatype Entry = Entry(tool: string, kind: FaultKind, arguments: Args, repeating: bool)

  datatype Mutation = Mutation(field: string, resource: string, before: Option<string>, after: Option<string>)

  datatype Observation = Observation(outcome: string, reasonCode: string, business: string)

  datatype Expectation = Expectation(
    outcome: string, reasonCodes: seq<string>,
    permitted: seq<string>, required: seq<string>,
    gateRequired: bool, protectedTools: seq<string>)

  /** A workflow over repository states `R`; the observer may raise, and so may the clean-up. */
  datatype Workflow<!R> = Workflow(
    tools: seq<Tool<R>>,
    expectation: Expectation,
    entries: seq<Entry>,
    seeded: R,
    capture: string -> map<string, string>,
    mutations: R -> seq<Mutation>,
    observe: R -> Option<Observation>,
    cleanUpFails: R -> bool)

  const MAX_RETRIES_PER_CALL := 2

  const TOKENS_PER_CALL := 18

  // ----- arguments -----

  /** The text before and after the first dot; the second part is empty when there is none. */
  function SplitDot(s: string): (string, string) {
    if s == "" then ("", "")
    else if s[0] == '.' then ("", s[1..])
    else var (a, b) := SplitDot(s[1..]); ([s[0]] + a, b)
  }

  type Captures = map<string, map<string, string>>

  /** The value of one argument; absent when a `$tool.field` reference was never captured. */
  function ResolveValue(v: Value, results: Captures): Option<Value> {
    if v.Text? && v.text != "" && v.text[0] == '$' then
      var (tool, field) := SplitDot(v.text[1..]);
      if tool in results && field in results[tool] then Some(Text(results[tool][field])) else None
    else Some(v)
  }

  /** All arguments resolved, or nothing when one cannot be. */
  ghost function Resolve(arguments: Args, results: Captures): Option<Args> {
    if exists k :: k in arguments && ResolveValue(arguments[k], results).None? then None
    else Some(map k | k in arguments :: ResolveValue(arguments[k], results).value)
  }

  predicate IsReference(v: Value) { v.Text? && v.text != "" && v.text[0] == '$' }

  /** The text is `$tool.field`, or `$tool` for the empty field; the name ends at the first dot. */
  ghost predicate RefersTo(v: Value, tool: string, field: string) {
    '.' !in tool && (v == Text("$" + (tool + "." + field)) || (field == "" && v == Text("$" + tool)))
  }

  ghost predicate Captured(results: Captures, tool: string, field: string) {
    tool in results && field in results[tool]
  }

  /** Some argument refers to a field that was not captured. */
  ghost predicate Dangles(arguments: Args, results: Captures) {
    exists k, tool, field :: k in arguments && RefersTo(arguments[k], tool, field) && !Captured(results, tool, field)
  }

  /** References became the captured texts, and every other argument is as it was. */
  ghost predicate Resolves(arguments: Args, results: Captures, resolved: Args) {
    && resolved.Keys == arguments.Keys
    && (forall k | k in arguments && !IsReference(arguments[k]) :: resolved[k] == arguments[k])
    && (forall k, tool, field | k in arguments && RefersTo(arguments[k], tool, field) ::
          Captured(results, tool, field) && resolved[k] == Text(results[tool][field]))
  }

  lemma {:induction false} SplitDotParts(s: string)
    ensures var (a, b) := SplitDot(s);
            '.' !in a && (s == a + "." + b || (b == "" && s == a))
  {
    if s != "" && s[0] != '.' {
      SplitDotParts(s[1..]);
      assert s == [s[0]] + s[1..];
    }
  }

  lemma {:induction false} SplitDotJoins(a: string, b: string)
    requires '.' !in a
    ensures SplitDot(a + "." + b) == (a, b) && SplitDot(a) == (a, "")
  {
    if a == "" {
      assert (a + "." + b)[1..] == b;
    } else {
      SplitDotJoins(a[1..], b);
      assert (a + "." + b)[1..] == a[1..] + "." + b;
      assert a == [a[0]] + a[1..] && a[0] in a;
    }
  }

  lemma ReferenceParts(v: Value)
    requires IsReference(v)
    ensures var (tool, field) := SplitDot(v.text[1..]);
            RefersTo(v, tool, field) && forall t, f | RefersTo(v, t, f) :: t == tool && f == field
  {
    var (tool, field) := SplitDot(v.text[1..]);
    SplitDotParts(v.text[1..]);
    assert v.text == "$" + v.text[1..];
    forall t, f | RefersTo(v, t, f) ensures t == tool && f == field {
      SplitDotJoins(t, f);
      assert ("$" + (t + "." + f))[1..] == t + "." + f && ("$" + t)[1..] == t;
    }
  }

  lemma ReferenceIff(v: Value, results: Captures)
    ensures IsReference(v) <==> exists tool, field :: RefersTo(v, tool, field)
    ensures forall tool, field | RefersTo(v, tool, field) ::
              ResolveValue(v, results)
              == if Captured(results, tool, field) then Some(Text(results[tool][field])) else None
    ensures !IsReference(v) ==> ResolveValue(v, results) == Some(v)
  {
    if IsReference(v) {
      ReferenceParts(v);
    }
  }

  /** Arguments fail to resolve exactly when one refers to a field that was not captured; otherwise each
      reference becomes the captured text. */
  lemma ResolveMeans(arguments: Args, results: Captures)
    ensures Resolve(arguments, results).None? <==> Dangles(arguments, results)
    ensures Resolve(arguments, results).Some? ==> Resolves(arguments, results, Resolve(arguments, results).value)
  {
    forall k | k in arguments
      ensures ResolveValue(arguments[k], results).None? <==>
                exists tool, field :: RefersTo(arguments[k], tool, field) && !Captured(results, tool, field)
      ensures !IsReference(arguments[k]) ==> ResolveValue(arguments[k], results) == Some(arguments[k])
      ensures forall tool, field | RefersTo(arguments[k], tool, field) && Captured(results, tool, field) ::
                ResolveValue(arguments[k], results) == Some(Text(results[tool][field]))
    {
      ReferenceIff(arguments[k], results);
    }
    if Dangles(arguments, results) {
      var k, tool, field :|
        k in arguments && RefersTo(arguments[k], tool, field) && !Captured(results, tool, field);
      assert ResolveValue(arguments[k], results).None?;
    }
  }

  method ResolveArguments(arguments: Args, results: Captures) returns (resolved: Option<Args>)
    ensures resolved == Resolve(arguments, results)
    ensures resolved.None? <==> Dangles(arguments, results)
    ensures resolved.Some? ==> Resolves(arguments, results, resolved.value)
  {
    ResolveMeans(arguments, results);
    var done: Args, left := map[], arguments.Keys;
    while left != {}
      invariant left <= arguments.Keys && done.Keys == arguments.Keys - left
      invariant forall k | k in done :: ResolveValue(arguments[k], results) == Some(done[k])
      decreases left
    {
      var k :| k in left;
      var v := ResolveValue(arguments[k], results);
      if v.None? {
        return None;
      }
      done := done[k := v.value];
      left := left - {k};
    }
    assert done == map k | k in arguments :: ResolveValue(arguments[k], results).value;
    return Some(done);
  }

  // ----- the fault script -----

  /** The printed form of a call argument; a missing one prints as None. */
  function PrintArgument(arguments: Args, key: string): string {
    if key in arguments then Print(arguments[key]) else "None"
  }

  predicate Matches(e: Entry, tool: string, arguments: Args) {
    e.tool == tool && forall k | k in e.arguments :: PrintArgument(arguments, k) == Print(e.arguments[k])
  }

  predicate Raises(e: Entry) { e.kind.Timeout? || e.kind.TransientError? }

  /** How the script lets a call go: through, into a timeout, or into a crash of the script itself. */
  datatype Fault = Passed | TimeoutRaised | ScriptCrashed

  /** Scans the entries from `i` on.  A delay is applied and the scan goes on; an entry of another
      kind without a delay value crashes when it is asked to sleep. */
  ghost function ApplyFrom(entries: seq<Entry>, i: nat, consumed: set<nat>, tool: string, arguments: Args)
    : (set<nat>, Fault)
    requires i <= |entries|
    decreases |entries| - i
  {
    if i == |entries| then (consumed, Passed)
    else if !Matches(entries[i], tool, arguments) || (i in consumed && !entries[i].repeating) then
      ApplyFrom(entries, i + 1, consumed, tool, arguments)
    else if Raises(entries[i]) then (consumed + {i}, TimeoutRaised)
    else if entries[i].kind.MalformedResponse? then (consumed + {i}, ScriptCrashed)
    else ApplyFrom(entries, i + 1, consumed + {i}, tool, arguments)
  }

  class FaultInjection {
    const entries: seq<Entry>
    var consumed: set<nat>

    constructor (entries: seq<Entry>)
      ensures this.entries == entries && consumed == {}
    {
      this.entries := entries;
      consumed := {};
    }

    method Apply(tool: string, arguments: Args) returns (fault: Fault)
      modifies this
      ensures (consumed, fault) == ApplyFrom(entries, 0, old(consumed), tool, arguments)
    {
      for i := 0 to |entries|
        invariant ApplyFrom(entries, 0, old(consumed), tool, arguments)
                  == ApplyFrom(entries, i, consumed, tool, arguments)
      {
        var entry := entries[i];
        if !Matches(entry, tool, arguments) {
          continue;
        }
        if i in consumed && !entry.repeating {
          continue;
        }
        consumed := consumed + {i};
        if Raises(entry) {
          return TimeoutRaised;
        }
        if entry.kind.MalformedResponse? {
          return ScriptCrashed;
        }
      }
      return Passed;
    }
  }

  // ----- the run loop -----

  datatype Progress<R> = Progress(
    index: nat, attempts: nat, retries: nat, tokens: nat,
    results: Captures, consumed: set<nat>, repo: R,
    errors: seq<string>, toolCalls: seq<string>, safetyOk: bool)

  datatype Exit = Completed | UnknownTool | GateBlocked | RetriesExhausted | Crashed

  datatype Move<R> = Go(next: Progress<R>) | Stop(exit: Exit, last: Progress<R>)

  function FindTool<R>(tools: seq<Tool<R>>, name: string): Option<Tool<R>> {
    if tools == [] then None
    else if tools[0].name == name then Some(tools[0])
    else FindTool(tools[1..], name)
  }

  /** A sensitive tool whose required approval gate was not verified. */
  predicate Gated<R>(w: Workflow<R>, plan: Plan, tool: Tool<R>) {
    !tool.safe && w.expectation.gateRequired && !plan.gateVerified && tool.name in w.expectation.protectedTools
  }

  /** What happens after a timeout of call `index`. */
  function AfterTimeout<R>(p: Progress<R>, tool: string): Move<R> {
    var q := p.(errors := p.errors + [tool + ":timeout"], attempts := p.attempts + 1);
    if q.attempts <= MAX_RETRIES_PER_CALL then Go(q.(retries := q.retries + 1))
    else Stop(RetriesExhausted, q.(errors := q.errors + [tool + ":retries_exhausted"], safetyOk := false))
  }

  function AfterResult<R>(w: Workflow<R>, p: Progress<R>, tool: string, repo: R, result: string): Move<R> {
    var captured := w.capture(result);
    Go(p.(repo := repo, tokens := p.tokens + TOKENS_PER_CALL,
          results := if captured != map[] then p.results[tool := captured] else p.results,
          attempts := 0, index := p.index + 1))
  }

  /** One pass of the loop. */
  ghost function Advance<R>(w: Workflow<R>, plan: Plan, p: Progress<R>): Move<R>
    requires p.index < |plan.calls|
  {
    var call := plan.calls[p.index];
    var tool := FindTool(w.tools, call.tool);
    if tool.None? then
      Stop(UnknownTool, p.(errors := p.errors + ["unknown tool " + call.tool], safetyOk := false))
    else
      var q := p.(toolCalls := p.toolCalls + [tool.value.name]);
      if Gated(w, plan, tool.value) then
        Stop(GateBlocked, q.(errors := q.errors + [tool.value.name + ":approval_required"], safetyOk := false))
      else
        var arguments := Resolve(call.arguments, q.results);
        if arguments.None? then Stop(Crashed, q)
        else
          var (consumed, fault) := ApplyFrom(w.entries, 0, q.consumed, tool.value.name, arguments.value);
          var r := q.(consumed := consumed);
          match fault
          case ScriptCrashed => Stop(Crashed, r)
          case TimeoutRaised => AfterTimeout(r, tool.value.name)
          case Passed =>
            match tool.value.run(r.repo, arguments.value)
            case Raised(_) => Stop(Crashed, r)
            case TimedOut(repo) => AfterTimeout(r.(repo := repo), tool.value.name)
            case Returned(repo, result) => AfterResult(w, r, tool.value.name, repo, result)
  }

  lemma AdvanceMeasure<R>(w: Workflow<R>, plan: Plan, p: Progress<R>)
    requires p.index < |plan.calls| && p.attempts <= MAX_RETRIES_PER_CALL
    ensures var m := Advance(w, plan, p);
            m.Go? ==> m.next.attempts <= MAX_RETRIES_PER_CALL
                      && ((m.next.index == p.index + 1 && m.next.attempts == 0)
                          || (m.next.index == p.index && m.next.attempts == p.attempts + 1))
    ensures var m := Advance(w, plan, p); m.Stop? ==> m.last.index == p.index && m.exit != Completed
  {
  }

  /** The whole loop: it ends after at most three attempts per planned call. */
  ghost function Exec<R>(w: Workflow<R>, plan: Plan, p: Progress<R>): (Exit, Progress<R>)
    requires p.index <= |plan.calls| && p.attempts <= MAX_RETRIES_PER_CALL
    decreases |plan.calls| - p.index, MAX_RETRIES_PER_CALL - p.attempts
  {
    if p.index == |plan.calls| then (Completed, p)
    else
      AdvanceMeasure(w, plan, p);
      match Advance(w, plan, p)
      case Stop(exit, last) => (exit, last)
      case Go(next) => Exec(w, plan, next)
  }

  function Start<R>(w: Workflow<R>): Progress<R> {
    Progress(0, 0, 0, 0, map[], {}, w.seeded, [], [], true)
  }

  ghost function Run<R>(w: Workflow<R>, plan: Plan): (Exit, Progress<R>) { Exec(w, plan, Start(w)) }

  // ----- the verdict -----

  function Transition(m: Mutation): Option<string> {
    if m.field == "created" then Some(m.resource + ":created")
    else if m.field == "status" then
      Some(m.resource + ":" + (if m.before.Some? then m.before.value else "?")
           + "->" + (if m.after.Some? then m.after.value else "?"))
    else None
  }

  function Transitions(ms: seq<Mutation>): seq<string> {
    if ms == [] then []
    else (match Transition(ms[0]) case Some(t) => [t] case None => []) + Transitions(ms[1..])
  }

  /** The disallowed observed transitions, then the missing required ones. */
  function TransitionErrors(observed: seq<string>, e: Expectation): seq<string> {
    Outside(observed, e.permitted) + Outside(e.required, observed)
  }

  function Outside(ts: seq<string>, allowed: seq<string>): seq<string> {
    if ts == [] then []
    else (if ts[0] in allowed then [] else [ts[0]]) + Outside(ts[1..], allowed)
  }

  datatype Verdict = Reproduced | Accepted | Failed

  datatype Conclusion = Conclusion(verdict: Verdict, outcome: string, reasonCode: string,
                                   transitions: seq<string>, transitionErrors: seq<string>, cleanUpOk: bool)

  /** Verdict, outcome and reason, derived from the final repository only. */
  function Conclude<R>(w: Workflow<R>, repo: R): Conclusion {
    var transitions := Transitions(w.mutations(repo));
    var transitionErrors := TransitionErrors(transitions, w.expectation);
    var seen := w.observe(repo);
    var observed := if seen.Some? then seen.value else Observation("failed", "observer_error", "failed");
    if w.cleanUpFails(repo) then
      Conclusion(Failed, "failed", "cleanup_failed", transitions, transitionErrors, false)
    else if transitionErrors != [] then
      Conclusion(Failed, "failed", "transition_contract_violation", transitions, transitionErrors, true)
    else
      var verdict :=
        if observed.outcome != w.expectation.outcome then Failed
        else if observed.reasonCode in w.expectation.reasonCodes then Reproduced
        else Accepted;
      Conclusion(verdict, observed.outcome, observed.reasonCode, transitions, transitionErrors, true)
  }

  datatype Report<R> = Report(progress: Progress<R>, conclusion: Conclusion)

  /** What the caller gets: a crash propagates, every other exit yields a report. */
  ghost function ReportOf<R>(w: Workflow<R>, plan: Plan): Option<Report<R>> {
    var (exit, last) := Run(w, plan);
    if exit.Crashed? then None else Some(Report(last, Conclude(w, last.repo)))
  }

  /** One pass of the loop body. */
  method Attempt<R>(w: Workflow<R>, plan: Plan, p: Progress<R>, faults: FaultInjection) returns (move: Move<R>)
    requires p.index < |plan.calls| && faults.entries == w.entries && faults.consumed == p.consumed
    modifies faults
    ensures move == Advance(w, plan, p)
    ensures move.Go? ==> faults.consumed == move.next.consumed
  {
    var call := plan.calls[p.index];
    var tool := FindTool(w.tools, call.tool);
    if tool.None? {
      return Stop(UnknownTool, p.(errors := p.errors + ["unknown tool " + call.tool], safetyOk := false));
    }
    var q := p.(toolCalls := p.toolCalls + [tool.value.name]);
    if Gated(w, plan, tool.value) {
      return Stop(GateBlocked, q.(errors := q.errors + [tool.value.name + ":approval_required"], safetyOk := false));
    }
    var arguments := ResolveArguments(call.arguments, q.results);
    if arguments.None? {
      return Stop(Crashed, q);
    }
    var fault := faults.Apply(tool.value.name, arguments.value);
    q := q.(consumed := faults.consumed);
    if fault.ScriptCrashed? {
      return Stop(Crashed, q);
    }
    if fault.TimeoutRaised? {
      return AfterTimeout(q, tool.value.name);
    }
    var step := tool.value.run(q.repo, arguments.value);
    match step {
      case Raised(_) => return Stop(Crashed, q);
      case TimedOut(repo) => return AfterTimeout(q.(repo := repo), tool.value.name);
      case Returned(repo, result) => return AfterResult(w, q, tool.value.name, repo, result);
    }
  }

  /** Runs one side of one workflow case. */
  method RunReferenceCase<R>(w: Workflow<R>, plan: Plan) returns (report: Option<Report<R>>)
    ensures report == ReportOf(w, plan)
  {
    var faults := new FaultInjection(w.entries);
    var p := Start(w);
    while p.index < |plan.calls|
      invariant p.index <= |plan.calls| && p.attempts <= MAX_RETRIES_PER_CALL
      invariant fresh(faults) && faults.entries == w.entries && faults.consumed == p.consumed
      invariant Run(w, plan) == Exec(w, plan, p)
      decreases |plan.calls| - p.index, MAX_RETRIES_PER_CALL - p.attempts
    {
      AdvanceMeasure(w, plan, p);
      var move := Attempt(w, plan, p, faults);
      match move {
        case Go(next) =>
          p := next;
        case Stop(exit, last) =>
          if exit.Crashed? {
            return None;
          }
          return Some(Report(last, Conclude(w, last.repo)));
      }
    }
    return Some(Report(p, Conclude(w, p.repo)));
  }
}
