/** Main results about reference runs: bounds, plan order, the approval gate, fault transparency. */
module ReferenceResults {
  import opened Ordering
  import opened ReferenceRunner

  lemma {:induction false} FindToolFacts<R>(tools: seq<Tool<R>>, name: string)
    ensures var t := FindTool(tools, name);
            t.Some? ==> t.value in tools && t.value.name == name
  {
    if tools != [] && tools[0].name != name {
      FindToolFacts(tools[1..], name);
    }
  }

  // ----- bounds -----

  ghost predicate Budgeted<R>(p: Progress<R>) {
    && |p.toolCalls| <= 3 * p.index + p.attempts
    && p.retries <= 2 * p.index + p.attempts
    && p.tokens == TOKENS_PER_CALL * p.index
  }

  lemma {:induction false} ExecBounds<R>(w: Workflow<R>, plan: Plan, p: Progress<R>)
    requires p.index <= |plan.calls| && p.attempts <= MAX_RETRIES_PER_CALL && Budgeted(p)
    requires p.index == |plan.calls| ==> p.attempts == 0
    ensures var (exit, q) := Exec(w, plan, p);
            && (exit.Completed? <==> q.index == |plan.calls|) && q.index <= |plan.calls|
            && |q.toolCalls| <= 3 * |plan.calls| && q.retries <= 2 * |plan.calls|
            && q.tokens == TOKENS_PER_CALL * q.index
    decreases |plan.calls| - p.index, MAX_RETRIES_PER_CALL - p.attempts
  {
    if p.index < |plan.calls| {
      AdvanceMeasure(w, plan, p);
      var m := Advance(w, plan, p);
      if m.Go? {
        ExecBounds(w, plan, m.next);
      }
    }
  }

  /** Every run ends with at most three selections and two retries per planned call, and charges
      exactly the completed calls; it completes exactly when the whole plan was executed. */
  lemma RunBounds<R>(w: Workflow<R>, plan: Plan)
    ensures var (exit, q) := Run(w, plan);
            && (exit.Completed? <==> q.index == |plan.calls|) && q.index <= |plan.calls|
            && |q.toolCalls| <= 3 * |plan.calls| && q.retries <= 2 * |plan.calls|
            && q.tokens == 18 * q.index
  {
    ExecBounds(w, plan, Start(w));
  }

  // ----- completed calls are a plan prefix, each run once -----

  ghost predicate NoOwnTimeouts<R(!new)>(w: Workflow<R>) {
    forall t, repo, arguments | t in w.tools :: !t.run(repo, arguments).TimedOut?
  }

  /** One planned call, run once on a repository with these captures. */
  ghost function RunOnce<R>(w: Workflow<R>, call: PlanCall, repo: R, results: Captures): Option<(R, Captures)> {
    var tool := FindTool(w.tools, call.tool);
    if tool.None? then None
    else
      var arguments := Resolve(call.arguments, results);
      if arguments.None? then None
      else
        match tool.value.run(repo, arguments.value)
        case Returned(repo', result) =>
          var captured := w.capture(result);
          Some((repo', if captured != map[] then results[tool.value.name := captured] else results))
        case _ => None
  }

  /** Repository and captures after the first `k` calls ran once each, in order, without any fault. */
  ghost function Prefix<R>(w: Workflow<R>, plan: Plan, k: nat): Option<(R, Captures)>
    requires k <= |plan.calls|
  {
    if k == 0 then Some((w.seeded, map[]))
    else
      match Prefix(w, plan, k - 1)
      case None => None
      case Some((repo, results)) => RunOnce(w, plan.calls[k - 1], repo, results)
  }

  ghost predicate AtPrefix<R>(w: Workflow<R>, plan: Plan, p: Progress<R>) {
    p.index <= |plan.calls| && Prefix(w, plan, p.index) == Some((p.repo, p.results))
  }

  /** One pass leaves repository and captures alone, or runs the planned call once. */
  lemma AdvanceIsRunOnce<R(!new)>(w: Workflow<R>, plan: Plan, p: Progress<R>)
    requires p.index < |plan.calls| && NoOwnTimeouts(w)
    ensures var m := Advance(w, plan, p);
            var q := if m.Go? then m.next else m.last;
            || (q.index == p.index && q.repo == p.repo && q.results == p.results)
            || (q.index == p.index + 1
                && RunOnce(w, plan.calls[p.index], p.repo, p.results) == Some((q.repo, q.results)))
  {
    FindToolFacts(w.tools, plan.calls[p.index].tool);
  }

  lemma AdvanceAtPrefix<R(!new)>(w: Workflow<R>, plan: Plan, p: Progress<R>)
    requires p.index < |plan.calls| && AtPrefix(w, plan, p) && NoOwnTimeouts(w)
    ensures var m := Advance(w, plan, p);
            AtPrefix(w, plan, if m.Go? then m.next else m.last)
  {
    AdvanceIsRunOnce(w, plan, p);
  }

  lemma {:induction false} ExecAtPrefix<R(!new)>(w: Workflow<R>, plan: Plan, p: Progress<R>)
    requires p.index <= |plan.calls| && p.attempts <= MAX_RETRIES_PER_CALL
    requires AtPrefix(w, plan, p) && NoOwnTimeouts(w)
    ensures AtPrefix(w, plan, Exec(w, plan, p).1)
    decreases |plan.calls| - p.index, MAX_RETRIES_PER_CALL - p.attempts
  {
    if p.index < |plan.calls| {
      AdvanceMeasure(w, plan, p);
      AdvanceAtPrefix(w, plan, p);
      var m := Advance(w, plan, p);
      if m.Go? {
        ExecAtPrefix(w, plan, m.next);
      }
    }
  }

  /** Whatever the fault script, the final repository is the one left by running the completed calls
      once each in plan order: faulted attempts leave no trace. */
  lemma RunIsPlanPrefix<R(!new)>(w: Workflow<R>, plan: Plan)
    requires NoOwnTimeouts(w)
    ensures AtPrefix(w, plan, Run(w, plan).1)
  {
    ExecAtPrefix(w, plan, Start(w));
  }

  // ----- the same when tools time out by themselves -----

  /** One attempt at a call whose tool times out by itself, leaving `repo'` behind. */
  ghost predicate TimesOut<R>(w: Workflow<R>, call: PlanCall, results: Captures, repo: R, repo': R) {
    var tool, arguments := FindTool(w.tools, call.tool), Resolve(call.arguments, results);
    tool.Some? && arguments.Some? && tool.value.run(repo, arguments.value) == TimedOut(repo')
  }

  /** `n` such attempts in a row lead from `repo` to `repo'`. */
  ghost predicate TimesOutTo<R(!new)>(w: Workflow<R>, call: PlanCall, results: Captures, repo: R, n: nat, repo': R) {
    if n == 0 then repo' == repo
    else exists mid :: TimesOutTo(w, call, results, repo, n - 1, mid) && TimesOut(w, call, results, mid, repo')
  }

  /** A completed call: at most two attempts timed out by themselves, then one success. */
  ghost predicate CompletesTo<R(!new)>(w: Workflow<R>, call: PlanCall, repo: R, results: Captures, repo': R,
                                       results': Captures) {
    exists n: nat, mid ::
      n <= MAX_RETRIES_PER_CALL && TimesOutTo(w, call, results, repo, n, mid)
      && RunOnce(w, call, mid, results) == Some((repo', results'))
  }

  /** Repository and captures after the first `k` calls were completed, in plan order. */
  ghost predicate CompletedTo<R(!new)>(w: Workflow<R>, plan: Plan, k: nat, repo: R, results: Captures)
    requires k <= |plan.calls|
    decreases k, 0
  {
    if k == 0 then repo == w.seeded && results == map[]
    else exists repo0, results0 :: CompletedFrom(w, plan, k, repo0, results0, repo, results)
  }

  /** The `k`-th call completed on what the calls before it left. */
  ghost predicate CompletedFrom<R(!new)>(w: Workflow<R>, plan: Plan, k: nat, repo0: R, results0: Captures,
                                         repo: R, results: Captures)
    requires 0 < k <= |plan.calls|
    decreases k - 1, 1
  {
    && CompletedTo(w, plan, k - 1, repo0, results0)
    && CompletesTo(w, plan.calls[k - 1], repo0, results0, repo, results)
  }

  /** The first `index` calls left `repo0`, and the next one timed out `n` times by itself. */
  ghost predicate UnderWay<R(!new)>(w: Workflow<R>, plan: Plan, p: Progress<R>, repo0: R, n: nat) {
    && p.index <= |plan.calls| && n <= p.attempts && CompletedTo(w, plan, p.index, repo0, p.results)
    && if p.index == |plan.calls| then p.repo == repo0
       else TimesOutTo(w, plan.calls[p.index], p.results, repo0, n, p.repo)
  }

  /** The first `index` calls are completed, and the next one timed out by itself at most once an attempt. */
  ghost predicate InPlanOrder<R(!new)>(w: Workflow<R>, plan: Plan, p: Progress<R>) {
    exists repo0, n: nat :: UnderWay(w, plan, p, repo0, n)
  }

  /** What one pass may do: leave everything, time out, or complete the call. */
  lemma AdvanceKinds<R(!new)>(w: Workflow<R>, plan: Plan, p: Progress<R>)
    requires p.index < |plan.calls|
    ensures var m := Advance(w, plan, p);
            var q := if m.Go? then m.next else m.last;
            var call := plan.calls[p.index];
            || (q.index == p.index && q.results == p.results && q.repo == p.repo && q.attempts >= p.attempts)
            || (q.index == p.index && q.results == p.results && q.attempts == p.attempts + 1
                && TimesOut(w, call, p.results, p.repo, q.repo))
            || (q.index == p.index + 1 && RunOnce(w, call, p.repo, p.results) == Some((q.repo, q.results)))
  {
    FindToolFacts(w.tools, plan.calls[p.index].tool);
  }

  lemma InOrderTimeout<R(!new)>(w: Workflow<R>, plan: Plan, p: Progress<R>, q: Progress<R>)
    requires InPlanOrder(w, plan, p) && p.index < |plan.calls|
    requires q.index == p.index && q.results == p.results && q.attempts == p.attempts + 1
    requires TimesOut(w, plan.calls[p.index], p.results, p.repo, q.repo)
    ensures InPlanOrder(w, plan, q)
  {
    var repo0, n: nat :| UnderWay(w, plan, p, repo0, n);
    assert TimesOutTo(w, plan.calls[p.index], p.results, repo0, n + 1, q.repo);
    assert UnderWay(w, plan, q, repo0, n + 1);
  }

  lemma FreshCallUnderWay<R(!new)>(w: Workflow<R>, plan: Plan, q: Progress<R>)
    requires q.index <= |plan.calls| && CompletedTo(w, plan, q.index, q.repo, q.results)
    ensures InPlanOrder(w, plan, q)
  {
    if q.index < |plan.calls| {
      assert TimesOutTo(w, plan.calls[q.index], q.results, q.repo, 0, q.repo);
    }
    assert UnderWay(w, plan, q, q.repo, 0);
  }

  lemma InOrderSuccess<R(!new)>(w: Workflow<R>, plan: Plan, p: Progress<R>, q: Progress<R>)
    requires InPlanOrder(w, plan, p) && p.index < |plan.calls| && p.attempts <= MAX_RETRIES_PER_CALL
    requires q.index == p.index + 1
    requires RunOnce(w, plan.calls[p.index], p.repo, p.results) == Some((q.repo, q.results))
    ensures InPlanOrder(w, plan, q)
  {
    var repo0, n: nat :| UnderWay(w, plan, p, repo0, n);
    assert CompletesTo(w, plan.calls[p.index], repo0, p.results, q.repo, q.results);
    assert CompletedFrom(w, plan, q.index, repo0, p.results, q.repo, q.results);
    FreshCallUnderWay(w, plan, q);
  }

  lemma AdvanceInOrder<R(!new)>(w: Workflow<R>, plan: Plan, p: Progress<R>)
    requires p.index < |plan.calls| && p.attempts <= MAX_RETRIES_PER_CALL && InPlanOrder(w, plan, p)
    ensures var m := Advance(w, plan, p);
            InPlanOrder(w, plan, if m.Go? then m.next else m.last)
  {
    var m := Advance(w, plan, p);
    var q := if m.Go? then m.next else m.last;
    AdvanceKinds(w, plan, p);
    if q.index == p.index + 1 {
      InOrderSuccess(w, plan, p, q);
    } else if q.repo == p.repo && q.attempts >= p.attempts {
      var repo0, n: nat :| UnderWay(w, plan, p, repo0, n);
      assert UnderWay(w, plan, q, repo0, n);
    } else {
      InOrderTimeout(w, plan, p, q);
    }
  }

  lemma {:induction false} ExecInOrder<R(!new)>(w: Workflow<R>, plan: Plan, p: Progress<R>)
    requires p.index <= |plan.calls| && p.attempts <= MAX_RETRIES_PER_CALL && InPlanOrder(w, plan, p)
    ensures InPlanOrder(w, plan, Exec(w, plan, p).1)
    decreases |plan.calls| - p.index, MAX_RETRIES_PER_CALL - p.attempts
  {
    if p.index == |plan.calls| {
    } else {
      AdvanceMeasure(w, plan, p);
      AdvanceInOrder(w, plan, p);
      var m := Advance(w, plan, p);
      if m.Go? {
        ExecInOrder(w, plan, m.next);
      }
    }
  }

  /** Whatever the fault script and whatever the tools do: the run completes a prefix of the plan in order, each
      call by one success after at most two attempts that timed out by themselves, and no other attempt changes
      repository or captures. */
  lemma RunInPlanOrder<R(!new)>(w: Workflow<R>, plan: Plan)
    ensures InPlanOrder(w, plan, Run(w, plan).1)
  {
    var p := Start(w);
    FreshCallUnderWay(w, plan, p);
    ExecInOrder(w, plan, p);
  }

  // ----- the order of the selected tools -----

  function Repeat(tool: string, n: nat): seq<string> {
    if n == 0 then [] else Repeat(tool, n - 1) + [tool]
  }

  /** The tools of the first `|times|` calls, in order, each as often as told. */
  function Selections(plan: Plan, times: seq<nat>): seq<string>
    requires |times| <= |plan.calls|
  {
    if times == [] then []
    else
      Selections(plan, times[..|times| - 1]) + Repeat(plan.calls[|times| - 1].tool, times[|times| - 1])
  }

  /** The completed calls were selected one to three times each; the current one follows, `n` times. */
  ghost predicate SelectedTo<R>(plan: Plan, p: Progress<R>, times: seq<nat>, n: nat) {
    && |times| == p.index <= |plan.calls| && (forall k | 0 <= k < |times| :: 1 <= times[k] <= 3)
    && p.toolCalls == Selections(plan, times)
                      + if p.index < |plan.calls| then Repeat(plan.calls[p.index].tool, n) else []
  }

  lemma SelectOnce<R(!new)>(w: Workflow<R>, plan: Plan, p: Progress<R>)
    requires p.index < |plan.calls|
    ensures var m := Advance(w, plan, p);
            var q := if m.Go? then m.next else m.last;
            && (q.toolCalls == p.toolCalls + [plan.calls[p.index].tool] || (m.Stop? && q.toolCalls == p.toolCalls))
  {
    FindToolFacts(w.tools, plan.calls[p.index].tool);
  }

  lemma NextSelections(plan: Plan, times: seq<nat>, n: nat)
    requires |times| < |plan.calls|
    ensures Selections(plan, times + [n]) == Selections(plan, times) + Repeat(plan.calls[|times|].tool, n)
  {
    assert (times + [n])[..|times|] == times;
  }

  /** One pass that stops, or stays at its call, or goes on to the next one. */
  lemma AdvanceSelects<R(!new)>(w: Workflow<R>, plan: Plan, p: Progress<R>, times: seq<nat>)
    requires p.index < |plan.calls| && p.attempts <= MAX_RETRIES_PER_CALL && SelectedTo(plan, p, times, p.attempts)
    ensures var m := Advance(w, plan, p);
            && (m.Stop? ==> SelectedTo(plan, m.last, times, p.attempts)
                            || SelectedTo(plan, m.last, times, p.attempts + 1))
            && (m.Go? && m.next.index == p.index ==> SelectedTo(plan, m.next, times, m.next.attempts))
            && (m.Go? && m.next.index == p.index + 1 ==>
                  SelectedTo(plan, m.next, times + [p.attempts + 1], m.next.attempts))
  {
    var tool := plan.calls[p.index].tool;
    AdvanceMeasure(w, plan, p);
    SelectOnce(w, plan, p);
    NextSelections(plan, times, p.attempts + 1);
    Assoc(Selections(plan, times), Repeat(tool, p.attempts), [tool]);
  }

  lemma {:induction false} ExecSelects<R(!new)>(w: Workflow<R>, plan: Plan, p: Progress<R>, times: seq<nat>)
    returns (times': seq<nat>, n: nat)
    requires p.index <= |plan.calls| && p.attempts <= MAX_RETRIES_PER_CALL && SelectedTo(plan, p, times, p.attempts)
    ensures SelectedTo(plan, Exec(w, plan, p).1, times', n) && n <= 3
    decreases |plan.calls| - p.index, MAX_RETRIES_PER_CALL - p.attempts
  {
    if p.index == |plan.calls| {
      return times, 0;
    }
    var m := Advance(w, plan, p);
    AdvanceMeasure(w, plan, p);
    AdvanceSelects(w, plan, p, times);
    if m.Stop? {
      times' := times;
      n := if SelectedTo(plan, m.last, times, p.attempts) then p.attempts else p.attempts + 1;
    } else if m.next.index == p.index {
      times', n := ExecSelects(w, plan, m.next, times);
    } else {
      times', n := ExecSelects(w, plan, m.next, times + [p.attempts + 1]);
    }
  }

  /** The selected tools are those of the plan, in order: each completed call one to three times, then up to three
      selections of the call at which the run stopped. */
  lemma SelectionsInOrder<R(!new)>(w: Workflow<R>, plan: Plan)
    ensures exists times, n: nat :: n <= 3 && SelectedTo(plan, Run(w, plan).1, times, n)
  {
    var times, n := ExecSelects(w, plan, Start(w), []);
    assert n <= 3 && SelectedTo(plan, Run(w, plan).1, times, n);
  }

  // ----- the approval gate -----

  /** The two workflows differ at most in what their gated tools do. */
  ghost predicate SameUngatedTools<R>(w: Workflow<R>, v: Workflow<R>, plan: Plan) {
    && v == w.(tools := v.tools)
    && |w.tools| == |v.tools|
    && forall i | 0 <= i < |w.tools| ::
         && w.tools[i].name == v.tools[i].name && w.tools[i].safe == v.tools[i].safe
         && (!Gated(w, plan, w.tools[i]) ==> w.tools[i] == v.tools[i])
  }

  lemma {:induction false} FindSame<R>(w: Workflow<R>, ws: seq<Tool<R>>, vs: seq<Tool<R>>, plan: Plan, name: string)
    requires |ws| == |vs|
    requires forall i | 0 <= i < |ws| ::
               && ws[i].name == vs[i].name && ws[i].safe == vs[i].safe
               && (!Gated(w, plan, ws[i]) ==> ws[i] == vs[i])
    ensures var s, t := FindTool(ws, name), FindTool(vs, name);
            && (s.None? <==> t.None?)
            && (s.Some? ==> s.value.name == t.value.name && s.value.safe == t.value.safe
                            && (!Gated(w, plan, s.value) ==> s == t))
  {
    if ws != [] && ws[0].name != name {
      FindSame(w, ws[1..], vs[1..], plan, name);
    }
  }

  lemma {:induction false} ExecIgnoresGated<R>(w: Workflow<R>, v: Workflow<R>, plan: Plan, p: Progress<R>)
    requires SameUngatedTools(w, v, plan)
    requires p.index <= |plan.calls| && p.attempts <= MAX_RETRIES_PER_CALL
    ensures Exec(w, plan, p) == Exec(v, plan, p)
    decreases |plan.calls| - p.index, MAX_RETRIES_PER_CALL - p.attempts
  {
    if p.index < |plan.calls| {
      FindSame(w, w.tools, v.tools, plan, plan.calls[p.index].tool);
      AdvanceMeasure(w, plan, p);
      var m := Advance(w, plan, p);
      assert m == Advance(v, plan, p);
      if m.Go? {
        ExecIgnoresGated(w, v, plan, m.next);
      }
    }
  }

  /** A protected unsafe tool never runs while a required gate is unverified: replacing what such
      tools do by anything else leaves the whole run unchanged. */
  lemma GatedToolsNeverRun<R>(w: Workflow<R>, v: Workflow<R>, plan: Plan)
    requires SameUngatedTools(w, v, plan)
    ensures Run(w, plan) == Run(v, plan)
    ensures ReportOf(w, plan) == ReportOf(v, plan)
  {
    ExecIgnoresGated(w, v, plan, Start(w));
  }

  // ----- fault transparency -----

  /** The timeout and transient entries of `tool` from `i` on that are not used up. */
  ghost function Left(entries: seq<Entry>, i: nat, consumed: set<nat>, tool: string): nat
    requires i <= |entries|
    decreases |entries| - i
  {
    if i == |entries| then 0
    else
      (if Raises(entries[i]) && entries[i].tool == tool && i !in consumed then 1 else 0)
      + Left(entries, i + 1, consumed, tool)
  }

  /** The retry budget: no timeout or transient entry repeats, each tool has at most two, and no entry
      is malformed. */
  ghost predicate WithinBudget(entries: seq<Entry>) {
    && (forall e | e in entries :: !e.kind.MalformedResponse? && (Raises(e) ==> !e.repeating))
    && (forall tool :: Left(entries, 0, {}, tool) <= MAX_RETRIES_PER_CALL)
  }

  lemma {:induction false} LeftShrinks(entries: seq<Entry>, i: nat, consumed: set<nat>, more: set<nat>, tool: string)
    requires i <= |entries| && consumed <= more
    ensures Left(entries, i, more, tool) <= Left(entries, i, consumed, tool)
    decreases |entries| - i
  {
    if i < |entries| {
      LeftShrinks(entries, i + 1, consumed, more, tool);
    }
  }

  lemma {:induction false} LeftDrops(entries: seq<Entry>, i: nat, consumed: set<nat>, more: set<nat>, tool: string,
                                     j: nat)
    requires i <= j < |entries| && consumed <= more && j !in consumed && j in more
    requires Raises(entries[j]) && entries[j].tool == tool
    ensures Left(entries, i, more, tool) < Left(entries, i, consumed, tool)
    decreases |entries| - i
  {
    if i == j {
      LeftShrinks(entries, i + 1, consumed, more, tool);
    } else {
      LeftDrops(entries, i + 1, consumed, more, tool, j);
    }
  }

  lemma {:induction false} ApplyFacts(entries: seq<Entry>, i: nat, consumed: set<nat>, tool: string, arguments: Args)
    requires i <= |entries|
    requires forall e | e in entries :: !e.kind.MalformedResponse? && (Raises(e) ==> !e.repeating)
    ensures var (consumed', fault) := ApplyFrom(entries, i, consumed, tool, arguments);
            && !fault.ScriptCrashed? && consumed <= consumed'
            && (fault.TimeoutRaised? ==>
                  exists j: nat :: j < |entries| && Raises(entries[j]) && entries[j].tool == tool
                                   && j !in consumed && j in consumed')
    decreases |entries| - i
  {
    if i < |entries| {
      var e := entries[i];
      if !Matches(e, tool, arguments) || (i in consumed && !e.repeating) {
        ApplyFacts(entries, i + 1, consumed, tool, arguments);
      } else if Raises(e) {
        assert i !in consumed;
      } else {
        ApplyFacts(entries, i + 1, consumed + {i}, tool, arguments);
      }
    }
  }

  /** The faulted run `p` is where the fault-free run `q` is, and its budget suffices. */
  ghost predicate InStep<R>(w: Workflow<R>, plan: Plan, p: Progress<R>, q: Progress<R>) {
    && p.index == q.index <= |plan.calls| && p.attempts <= MAX_RETRIES_PER_CALL && q.attempts == 0
    && p.repo == q.repo && p.results == q.results && p.tokens == q.tokens && p.safetyOk == q.safetyOk
    && |p.toolCalls| == |q.toolCalls| + p.retries
    && (forall tool :: Left(w.entries, 0, p.consumed, tool) <= MAX_RETRIES_PER_CALL)
    && (p.index < |plan.calls| ==>
          p.attempts + Left(w.entries, 0, p.consumed, plan.calls[p.index].tool) <= MAX_RETRIES_PER_CALL)
  }

  /** The results of two runs agree up to the record of the retries. */
  ghost predicate SameResult<R>(a: (Exit, Progress<R>), b: (Exit, Progress<R>)) {
    && a.0 == b.0
    && a.1.index == b.1.index && a.1.repo == b.1.repo && a.1.results == b.1.results
    && a.1.tokens == b.1.tokens && a.1.safetyOk == b.1.safetyOk
    && |a.1.toolCalls| == |b.1.toolCalls| + a.1.retries
  }

  /** Putting a call to the script keeps the budget of every tool, and a raised timeout uses some of its own. */
  lemma ScriptUsed(entries: seq<Entry>, consumed: set<nat>, tool: string, arguments: Args)
    requires WithinBudget(entries) && forall t :: Left(entries, 0, consumed, t) <= MAX_RETRIES_PER_CALL
    ensures var (consumed', fault) := ApplyFrom(entries, 0, consumed, tool, arguments);
            && !fault.ScriptCrashed?
            && (forall t :: Left(entries, 0, consumed', t) <= Left(entries, 0, consumed, t))
            && (fault.TimeoutRaised? ==> Left(entries, 0, consumed', tool) < Left(entries, 0, consumed, tool))
  {
    var (consumed', fault) := ApplyFrom(entries, 0, consumed, tool, arguments);
    ApplyFacts(entries, 0, consumed, tool, arguments);
    forall t ensures Left(entries, 0, consumed', t) <= Left(entries, 0, consumed, t) {
      LeftShrinks(entries, 0, consumed, consumed', t);
    }
    if fault.TimeoutRaised? {
      var j: nat :| j < |entries| && Raises(entries[j]) && entries[j].tool == tool
                    && j !in consumed && j in consumed';
      LeftDrops(entries, 0, consumed, consumed', tool, j);
    }
  }

  /** The outcomes of one pass of the faulted run and of the fault-free run agree. */
  ghost predicate Together<R>(w: Workflow<R>, plan: Plan, p: Progress<R>, q: Progress<R>, m: Move<R>, n: Move<R>) {
    if m.Stop? then n.Stop? && SameResult((m.exit, m.last), (n.exit, n.last))
    else (InStep(w, plan, m.next, q) && m.next.index == p.index)
         || (n.Go? && InStep(w, plan, m.next, n.next) && m.next.index == p.index + 1)
  }

  /** The current call is put to the script. */
  ghost predicate Scripted<R>(w: Workflow<R>, plan: Plan, p: Progress<R>) {
    && p.index < |plan.calls|
    && var call := plan.calls[p.index];
       var tool := FindTool(w.tools, call.tool);
       tool.Some? && !Gated(w, plan, tool.value) && Resolve(call.arguments, p.results).Some?
  }

  lemma StopTogether<R(!new)>(w: Workflow<R>, plan: Plan, p: Progress<R>, q: Progress<R>)
    requires InStep(w, plan, p, q) && p.index < |plan.calls| && !Scripted(w, plan, p)
    ensures Together(w, plan, p, q, Advance(w, plan, p), Advance(w.(entries := []), plan, q))
  {
  }

  lemma FaultTogether<R(!new)>(w: Workflow<R>, plan: Plan, p: Progress<R>, q: Progress<R>, arguments: Args)
    requires WithinBudget(w.entries) && InStep(w, plan, p, q) && Scripted(w, plan, p)
    requires Resolve(plan.calls[p.index].arguments, p.results) == Some(arguments)
    requires ApplyFrom(w.entries, 0, p.consumed, plan.calls[p.index].tool, arguments).1.TimeoutRaised?
    ensures Advance(w, plan, p).Go? && InStep(w, plan, Advance(w, plan, p).next, q)
    ensures Advance(w, plan, p).next.index == p.index
  {
    var call := plan.calls[p.index];
    FindToolFacts(w.tools, call.tool);
    ScriptUsed(w.entries, p.consumed, call.tool, arguments);
  }

  lemma PassTogether<R(!new)>(w: Workflow<R>, plan: Plan, p: Progress<R>, q: Progress<R>, arguments: Args)
    requires WithinBudget(w.entries) && NoOwnTimeouts(w) && InStep(w, plan, p, q) && Scripted(w, plan, p)
    requires Resolve(plan.calls[p.index].arguments, p.results) == Some(arguments)
    requires ApplyFrom(w.entries, 0, p.consumed, plan.calls[p.index].tool, arguments).1.Passed?
    ensures Together(w, plan, p, q, Advance(w, plan, p), Advance(w.(entries := []), plan, q))
  {
    var call := plan.calls[p.index];
    FindToolFacts(w.tools, call.tool);
    ScriptUsed(w.entries, p.consumed, call.tool, arguments);
    assert !FindTool(w.tools, call.tool).value.run(p.repo, arguments).TimedOut?;
  }

  lemma StepTogether<R(!new)>(w: Workflow<R>, plan: Plan, p: Progress<R>, q: Progress<R>)
    requires WithinBudget(w.entries) && NoOwnTimeouts(w) && InStep(w, plan, p, q) && p.index < |plan.calls|
    ensures Together(w, plan, p, q, Advance(w, plan, p), Advance(w.(entries := []), plan, q))
  {
    if Scripted(w, plan, p) {
      var call := plan.calls[p.index];
      var arguments := Resolve(call.arguments, p.results).value;
      ScriptUsed(w.entries, p.consumed, call.tool, arguments);
      if ApplyFrom(w.entries, 0, p.consumed, call.tool, arguments).1.TimeoutRaised? {
        FaultTogether(w, plan, p, q, arguments);
      } else {
        PassTogether(w, plan, p, q, arguments);
      }
    } else {
      StopTogether(w, plan, p, q);
    }
  }

  lemma {:induction false} ExecTogether<R(!new)>(w: Workflow<R>, plan: Plan, p: Progress<R>, q: Progress<R>)
    requires WithinBudget(w.entries) && NoOwnTimeouts(w) && InStep(w, plan, p, q)
    ensures SameResult(Exec(w, plan, p), Exec(w.(entries := []), plan, q))
    decreases |plan.calls| - p.index, MAX_RETRIES_PER_CALL - p.attempts
  {
    if p.index < |plan.calls| {
      StepTogether(w, plan, p, q);
      AdvanceMeasure(w, plan, p);
      var m := Advance(w, plan, p);
      if m.Go? {
        if m.next.index == p.index {
          ExecTogether(w, plan, m.next, q);
        } else {
          var n := Advance(w.(entries := []), plan, q);
          ExecTogether(w, plan, m.next, n.next);
        }
      }
    }
  }

  /** Fault transparency: within the retry budget a faulted run stops where the fault-free run stops,
      with the same repository, captures, transitions and verdict; it only selects each retried tool
      once more per retry. */
  lemma FaultTransparency<R(!new)>(w: Workflow<R>, plan: Plan)
    requires WithinBudget(w.entries) && NoOwnTimeouts(w)
    ensures SameResult(Run(w, plan), Run(w.(entries := []), plan))
    ensures var a, b := ReportOf(w, plan), ReportOf(w.(entries := []), plan);
            && (a.None? <==> b.None?)
            && (a.Some? ==> a.value.conclusion == b.value.conclusion)
  {
    ExecTogether(w, plan, Start(w), Start(w));
  }

  // ----- the transition contract -----

  lemma {:induction false} OutsideEmpty(ts: seq<string>, allowed: seq<string>)
    ensures Outside(ts, allowed) == [] <==> forall t | t in ts :: t in allowed
  {
    if ts != [] {
      OutsideEmpty(ts[1..], allowed);
      assert forall t :: t in ts <==> t == ts[0] || t in ts[1..];
    }
  }

  /** A run is reproduced or accepted only when the clean-up succeeded, every observed transition is
      permitted and every required one was observed. */
  lemma VerdictNeedsContract<R>(w: Workflow<R>, repo: R)
    ensures var c := Conclude(w, repo);
            !c.verdict.Failed? <==>
              && !w.cleanUpFails(repo)
              && (forall t | t in c.transitions :: t in w.expectation.permitted)
              && (forall t | t in w.expectation.required :: t in c.transitions)
              && c.outcome == w.expectation.outcome
  {
    var ts := Transitions(w.mutations(repo));
    OutsideEmpty(ts, w.expectation.permitted);
    OutsideEmpty(w.expectation.required, ts);
  }

  lemma {:induction false} TransitionsMember(ms: seq<Mutation>, t: string)
    ensures t in Transitions(ms) <==> exists m :: m in ms && Transition(m) == Some(t)
  {
    if ms != [] {
      TransitionsMember(ms[1..], t);
      assert forall m :: m in ms <==> m == ms[0] || m in ms[1..];
    }
  }

  lemma {:induction false} OutsideMember(ts: seq<string>, allowed: seq<string>, t: string)
    ensures t in Outside(ts, allowed) <==> t in ts && t !in allowed
  {
    if ts != [] {
      OutsideMember(ts[1..], allowed, t);
      assert t in ts <==> t == ts[0] || t in ts[1..];
    }
  }

  lemma DisallowedFirst(ts: seq<string>, e: Expectation)
    ensures var errors := TransitionErrors(ts, e);
            forall i, j | 0 <= i < j < |errors| && errors[j] in ts :: errors[i] in ts
  {
    var errors, first := TransitionErrors(ts, e), Outside(ts, e.permitted);
    forall i | 0 <= i < |errors| ensures errors[i] in ts <==> i < |first| {
      OutsideMember(ts, e.permitted, errors[i]);
      OutsideMember(e.required, ts, errors[i]);
    }
  }

  /** A status that the trail does not hold prints as a question mark. */
  function Shown(status: Option<string>): string { if status == None then "?" else status.value }

  /** A created record, or a changed status with its values before and after. */
  ghost predicate Shows(m: Mutation, t: string) {
    || (m.field == "created" && t == m.resource + ":created")
    || (m.field == "status" && t == m.resource + ":" + Shown(m.before) + "->" + Shown(m.after))
  }

  /** What the workflow's observer saw, or that it failed. */
  function Seen<R>(w: Workflow<R>, repo: R): Observation {
    match w.observe(repo)
    case Some(observation) => observation
    case None => Observation("failed", "observer_error", "failed")
  }

  /** The transition errors are the disallowed transitions, then the missing ones; a run without any that was cleaned up
      is reproduced when outcome and reason are the expected ones, accepted when only the outcome is, and failed
      otherwise; the other runs fail for the first of those two reasons. */
  lemma VerdictMeans<R>(w: Workflow<R>, repo: R)
    ensures var c, e := Conclude(w, repo), w.expectation;
            && (forall t :: t in c.transitions <==> exists m :: m in w.mutations(repo) && Shows(m, t))
            && (forall t :: t in c.transitionErrors <==>
                  (t in c.transitions && t !in e.permitted) || (t in e.required && t !in c.transitions))
            && (forall i, j | 0 <= i < j < |c.transitionErrors| && c.transitionErrors[j] in c.transitions ::
                  c.transitionErrors[i] in c.transitions)
            && (w.cleanUpFails(repo) ==>
                  c.verdict == Failed && c.outcome == "failed" && c.reasonCode == "cleanup_failed")
            && (!w.cleanUpFails(repo) && c.transitionErrors != [] ==>
                  c.verdict == Failed && c.outcome == "failed" && c.reasonCode == "transition_contract_violation")
            && (!w.cleanUpFails(repo) && c.transitionErrors == [] ==>
                  && (c.outcome, c.reasonCode) == (Seen(w, repo).outcome, Seen(w, repo).reasonCode)
                  && (c.verdict == Reproduced <==> c.outcome == e.outcome && c.reasonCode in e.reasonCodes)
                  && (c.verdict == Accepted <==> c.outcome == e.outcome && c.reasonCode !in e.reasonCodes))
  {
    var ms, ts := w.mutations(repo), Transitions(w.mutations(repo));
    forall t ensures t in ts <==> exists m :: m in ms && Shows(m, t) { TransitionsMember(ms, t); }
    forall t ensures t in TransitionErrors(ts, w.expectation) <==>
                       (t in ts && t !in w.expectation.permitted) || (t in w.expectation.required && t !in ts)
    {
      OutsideMember(ts, w.expectation.permitted, t);
      OutsideMember(w.expectation.required, ts, t);
    }
    DisallowedFirst(ts, w.expectation);
  }

  // ----- the budget is tight -----

  function Healthy(repo: int, arguments: Args): ToolStep<int> { Returned(repo + 1, "ok") }

  function NoCaptures(result: string): map<string, string> { map[] }

  function NoMutations(repo: int): seq<Mutation> { [] }

  function Unobserved(repo: int): Option<Observation> { None }

  function CleansUp(repo: int): bool { false }

  /** One healthy tool behind three timeouts. */
  function ThreeTimeouts(): Workflow<int> {
    var entry := Entry("lookup", Timeout, map[], false);
    Workflow([Tool("lookup", true, Healthy)], Expectation("done", ["ok"], [], [], false, []),
             [entry, entry, entry], 0, NoCaptures, NoMutations, Unobserved, CleansUp)
  }

  function OneCall(): Plan { Plan([PlanCall("lookup", map[])], false) }

  function UpTo(k: nat): set<nat> { if k == 0 then {} else UpTo(k - 1) + {k - 1} }

  lemma TimeoutNumber(k: nat, consumed: set<nat>)
    requires k < 3 && consumed == UpTo(k)
    ensures ApplyFrom(ThreeTimeouts().entries, 0, consumed, "lookup", map[]) == (consumed + {k}, TimeoutRaised)
  {
    var entries := ThreeTimeouts().entries;
    if k > 1 {
      assert ApplyFrom(entries, 2, consumed, "lookup", map[]) == (consumed + {k}, TimeoutRaised);
    }
    if k > 0 {
      assert ApplyFrom(entries, 1, consumed, "lookup", map[]) == (consumed + {k}, TimeoutRaised);
    }
  }

  lemma EmptyArguments(results: Captures)
    ensures Resolve(map[], results) == Some(map[])
  {
    assert Resolve(map[], results).Some?;
    assert Resolve(map[], results).value == map[];
  }

  lemma AttemptTimesOut(p: Progress<int>)
    requires p.index == 0 && p.attempts <= 2 && p.consumed == UpTo(p.attempts)
    ensures var m := Advance(ThreeTimeouts(), OneCall(), p);
            if p.attempts < 2
            then m.Go? && m.next.index == 0 && m.next.attempts == p.attempts + 1
                 && m.next.consumed == UpTo(p.attempts + 1)
            else m.Stop? && m.exit == RetriesExhausted && m.last.index == 0
  {
    EmptyArguments(p.results);
    TimeoutNumber(p.attempts, p.consumed);
    assert UpTo(p.attempts + 1) == UpTo(p.attempts) + {p.attempts};
  }

  /** Three timeouts on one call exhaust its retries, although the fault-free run completes. */
  lemma ThreeTimeoutsExhaust()
    ensures Run(ThreeTimeouts(), OneCall()).0 == RetriesExhausted
    ensures Run(ThreeTimeouts().(entries := []), OneCall()).0 == Completed
  {
    var w, plan := ThreeTimeouts(), OneCall();
    var p0 := Start(w);
    AttemptTimesOut(p0);
    var p1 := Advance(w, plan, p0).next;
    AttemptTimesOut(p1);
    var p2 := Advance(w, plan, p1).next;
    AttemptTimesOut(p2);
    assert Exec(w, plan, p2).0 == RetriesExhausted;
    assert Exec(w, plan, p1) == Exec(w, plan, p2);
    assert Exec(w, plan, p0) == Exec(w, plan, p1);
    var v := w.(entries := []);
    EmptyArguments(map[]);
    var m := Advance(v, plan, Start(v));
    assert m.Go? && m.next.index == 1;
    assert Exec(v, plan, m.next).0 == Completed;
  }
}
