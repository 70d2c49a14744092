/** What the tools of a reference run receive, and where the run stops. */
module ReferenceCaptures {
  import opened Ordering
  import opened ReferenceRunner
  import opened ReferenceResults

  // ----- the tool of a call -----

  /** The first tool with that name. */
  ghost predicate FirstNamed<R>(tools: seq<Tool<R>>, name: string, tool: Tool<R>) {
    exists i :: 0 <= i < |tools| && tools[i] == tool && tool.name == name
                && forall j | 0 <= j < i :: tools[j].name != name
  }

  lemma {:induction false} FindToolIsFirst<R>(tools: seq<Tool<R>>, name: string)
    ensures FindTool(tools, name).None? <==> forall t | t in tools :: t.name != name
    ensures FindTool(tools, name).Some? ==> FirstNamed(tools, name, FindTool(tools, name).value)
  {
    if tools != [] && tools[0].name != name {
      FindToolIsFirst(tools[1..], name);
      if FindTool(tools, name).Some? {
        var tool := FindTool(tools, name).value;
        var i :| 0 <= i < |tools[1..]| && tools[1..][i] == tool && forall j | 0 <= j < i :: tools[1..][j].name != name;
        assert tools[i + 1] == tool;
        forall j | 0 <= j < i + 1 ensures tools[j].name != name {
          if j > 0 { assert tools[1..][j - 1] == tools[j]; }
        }
      }
    }
  }

  // ----- what the completed calls received -----

  /** A completed call: the repository it met, the arguments it received, and what it left and answered. */
  datatype Done<R> = Done(before: R, given: Args, after: R, result: string)

  /** Of the calls before `i`, number `j` is the last one of `tool` that captured anything. */
  ghost predicate LastCapture<R>(w: Workflow<R>, plan: Plan, done: seq<Done<R>>, i: nat, tool: string, j: nat) {
    && j < i <= |done| <= |plan.calls|
    && plan.calls[j].tool == tool && w.capture(done[j].result) != map[]
    && forall k: nat | j < k < i && plan.calls[k].tool == tool :: w.capture(done[k].result) == map[]
  }

  /** Each reference of call `i` was replaced by what the last capturing call of its tool captured. */
  ghost predicate Receives<R>(w: Workflow<R>, plan: Plan, done: seq<Done<R>>, i: nat, given: Args) {
    && i <= |done| && i < |plan.calls|
    && var arguments := plan.calls[i].arguments;
       && given.Keys == arguments.Keys
       && (forall k | k in arguments && !IsReference(arguments[k]) :: given[k] == arguments[k])
       && (forall k, tool, field | k in arguments && RefersTo(arguments[k], tool, field) ::
             exists j: nat :: LastCapture(w, plan, done, i, tool, j) && Yields(w, done[j], field, given[k]))
  }

  ghost predicate Yields<R>(w: Workflow<R>, d: Done<R>, field: string, v: Value) {
    field in w.capture(d.result) && v == Text(w.capture(d.result)[field])
  }

  /** `n` attempts with these arguments, each timing out by itself, lead from `repo` to `repo'`. */
  ghost predicate Waits<R(!new)>(tool: Tool<R>, given: Args, repo: R, n: nat, repo': R) {
    if n == 0 then repo' == repo
    else exists mid :: Waits(tool, given, repo, n - 1, mid) && tool.run(mid, given) == TimedOut(repo')
  }

  ghost function Met<R>(w: Workflow<R>, done: seq<Done<R>>, i: nat): R
    requires i <= |done|
  {
    if i == 0 then w.seeded else done[i - 1].after
  }

  /** Call `i` ran the first tool of its name on the arguments it received, after at most two own timeouts. */
  ghost predicate RanOn<R(!new)>(w: Workflow<R>, plan: Plan, done: seq<Done<R>>, i: nat, tool: Tool<R>, n: nat) {
    && i < |done| && i < |plan.calls|
    && FirstNamed(w.tools, plan.calls[i].tool, tool) && n <= 2
    && Waits(tool, done[i].given, Met(w, done, i), n, done[i].before)
    && tool.run(done[i].before, done[i].given) == Returned(done[i].after, done[i].result)
  }

  ghost predicate CallDone<R(!new)>(w: Workflow<R>, plan: Plan, done: seq<Done<R>>, i: nat) {
    && i < |done| && Receives(w, plan, done, i, done[i].given)
    && exists tool, n: nat :: RanOn(w, plan, done, i, tool, n)
  }

  /** What is captured of one tool after the calls in `done`: its last capture, or nothing when it captured nothing. */
  ghost predicate HoldsOf<R>(w: Workflow<R>, plan: Plan, done: seq<Done<R>>, results: Captures, tool: string) {
    && |done| <= |plan.calls|
    && if tool in results
       then exists j: nat :: LastCapture(w, plan, done, |done|, tool, j) && results[tool] == w.capture(done[j].result)
       else forall j: nat | j < |done| && plan.calls[j].tool == tool :: w.capture(done[j].result) == map[]
  }

  ghost predicate Holds<R>(w: Workflow<R>, plan: Plan, done: seq<Done<R>>, results: Captures) {
    forall tool :: HoldsOf(w, plan, done, results, tool)
  }

  ghost predicate AllDone<R(!new)>(w: Workflow<R>, plan: Plan, done: seq<Done<R>>) {
    |done| <= |plan.calls| && forall i: nat | i < |done| :: CallDone(w, plan, done, i)
  }

  lemma LastCaptureStays<R>(w: Workflow<R>, plan: Plan, done: seq<Done<R>>, d: Done<R>, i: nat, tool: string, j: nat)
    requires i <= |done| < |plan.calls| && LastCapture(w, plan, done, i, tool, j)
    ensures LastCapture(w, plan, done + [d], i, tool, j) && (done + [d])[j] == done[j]
  {
    forall k: nat | j < k < i && plan.calls[k].tool == tool ensures w.capture((done + [d])[k].result) == map[] {
      assert (done + [d])[k] == done[k];
    }
  }

  lemma ReceivesStays<R>(w: Workflow<R>, plan: Plan, done: seq<Done<R>>, d: Done<R>, i: nat, given: Args)
    requires |done| < |plan.calls| && Receives(w, plan, done, i, given)
    ensures Receives(w, plan, done + [d], i, given)
  {
    var arguments := plan.calls[i].arguments;
    forall k, tool, field | k in arguments && RefersTo(arguments[k], tool, field)
      ensures exists j: nat ::
                LastCapture(w, plan, done + [d], i, tool, j) && Yields(w, (done + [d])[j], field, given[k])
    {
      var j: nat :| LastCapture(w, plan, done, i, tool, j) && Yields(w, done[j], field, given[k]);
      LastCaptureStays(w, plan, done, d, i, tool, j);
    }
  }

  lemma CallDoneStays<R(!new)>(w: Workflow<R>, plan: Plan, done: seq<Done<R>>, d: Done<R>, i: nat)
    requires |done| < |plan.calls| && CallDone(w, plan, done, i)
    ensures CallDone(w, plan, done + [d], i)
  {
    ReceivesStays(w, plan, done, d, i, done[i].given);
    var tool, n: nat :| RanOn(w, plan, done, i, tool, n);
    assert (done + [d])[i] == done[i] && Met(w, done + [d], i) == Met(w, done, i);
    assert RanOn(w, plan, done + [d], i, tool, n);
  }

  /** Resolved against what is held, the arguments of the next call are what it must receive. */
  lemma ResolvedIsReceived<R>(w: Workflow<R>, plan: Plan, done: seq<Done<R>>, results: Captures, given: Args)
    requires |done| < |plan.calls| && Holds(w, plan, done, results)
    requires Resolve(plan.calls[|done|].arguments, results) == Some(given)
    ensures Receives(w, plan, done, |done|, given)
  {
    var arguments := plan.calls[|done|].arguments;
    ResolveMeans(arguments, results);
    forall k, tool, field | k in arguments && RefersTo(arguments[k], tool, field)
      ensures exists j: nat :: LastCapture(w, plan, done, |done|, tool, j) && Yields(w, done[j], field, given[k])
    {
      assert Captured(results, tool, field) && given[k] == Text(results[tool][field]);
      assert HoldsOf(w, plan, done, results, tool);
    }
  }

  lemma HoldsNext<R>(w: Workflow<R>, plan: Plan, done: seq<Done<R>>, results: Captures, d: Done<R>)
    requires |done| < |plan.calls| && Holds(w, plan, done, results)
    ensures var captured, tool := w.capture(d.result), plan.calls[|done|].tool;
            Holds(w, plan, done + [d], if captured != map[] then results[tool := captured] else results)
  {
    var captured, next := w.capture(d.result), done + [d];
    var results' := if captured != map[] then results[plan.calls[|done|].tool := captured] else results;
    forall tool ensures HoldsOf(w, plan, next, results', tool) {
      assert HoldsOf(w, plan, done, results, tool);
      if tool == plan.calls[|done|].tool && captured != map[] {
        assert LastCapture(w, plan, next, |next|, tool, |done|);
      } else if tool in results {
        var j: nat :| LastCapture(w, plan, done, |done|, tool, j) && results[tool] == w.capture(done[j].result);
        LastCaptureStays(w, plan, done, d, |done|, tool, j);
        assert LastCapture(w, plan, next, |next|, tool, j);
      }
    }
  }

  lemma {:induction false} TimeoutsAreWaits<R(!new)>(w: Workflow<R>, call: PlanCall, results: Captures, repo: R, n: nat,
                                                     repo': R, tool: Tool<R>, given: Args)
    requires FindTool(w.tools, call.tool) == Some(tool) && Resolve(call.arguments, results) == Some(given)
    requires TimesOutTo(w, call, results, repo, n, repo')
    ensures Waits(tool, given, repo, n, repo')
    decreases n
  {
    if n > 0 {
      var mid :| TimesOutTo(w, call, results, repo, n - 1, mid) && TimesOut(w, call, results, mid, repo');
      TimeoutsAreWaits(w, call, results, repo, n - 1, mid, tool, given);
    }
  }

  lemma RanOnce<R(!new)>(w: Workflow<R>, call: PlanCall, repo: R, results: Captures, repo': R, results': Captures)
    returns (tool: Tool<R>, given: Args, result: string)
    requires RunOnce(w, call, repo, results) == Some((repo', results'))
    ensures FindTool(w.tools, call.tool) == Some(tool) && FirstNamed(w.tools, call.tool, tool)
    ensures Resolve(call.arguments, results) == Some(given) && tool.run(repo, given) == Returned(repo', result)
    ensures results' == if w.capture(result) != map[] then results[call.tool := w.capture(result)] else results
  {
    tool, given := FindTool(w.tools, call.tool).value, Resolve(call.arguments, results).value;
    result := tool.run(repo, given).result;
    FindToolIsFirst(w.tools, call.tool);
  }

  lemma LastDone<R(!new)>(w: Workflow<R>, plan: Plan, done: seq<Done<R>>, d: Done<R>, tool: Tool<R>, n: nat)
    requires |done| < |plan.calls| && AllDone(w, plan, done) && Receives(w, plan, done, |done|, d.given)
    requires FirstNamed(w.tools, plan.calls[|done|].tool, tool) && n <= 2
    requires Waits(tool, d.given, Met(w, done, |done|), n, d.before)
    requires tool.run(d.before, d.given) == Returned(d.after, d.result)
    ensures AllDone(w, plan, done + [d])
  {
    var i, next := |done|, done + [d];
    ReceivesStays(w, plan, done, d, i, d.given);
    assert next[i] == d && Met(w, next, i) == Met(w, done, i);
    assert RanOn(w, plan, next, i, tool, n);
    forall k: nat | k < |next| ensures CallDone(w, plan, next, k) {
      if k < i { CallDoneStays(w, plan, done, d, k); }
    }
  }

  /** One more completed call. */
  lemma NextDone<R(!new)>(w: Workflow<R>, plan: Plan, done: seq<Done<R>>, results: Captures, repo': R,
                          results': Captures) returns (d: Done<R>)
    requires |done| < |plan.calls| && AllDone(w, plan, done) && Holds(w, plan, done, results)
    requires CompletesTo(w, plan.calls[|done|], Met(w, done, |done|), results, repo', results')
    ensures d.after == repo' && AllDone(w, plan, done + [d]) && Holds(w, plan, done + [d], results')
  {
    var i, call := |done|, plan.calls[|done|];
    var n: nat, mid :| n <= MAX_RETRIES_PER_CALL && TimesOutTo(w, call, results, Met(w, done, i), n, mid)
                       && RunOnce(w, call, mid, results) == Some((repo', results'));
    var tool, given, result := RanOnce(w, call, mid, results, repo', results');
    d := Done(mid, given, repo', result);
    TimeoutsAreWaits(w, call, results, Met(w, done, i), n, mid, tool, given);
    ResolvedIsReceived(w, plan, done, results, given);
    LastDone(w, plan, done, d, tool, n);
    HoldsNext(w, plan, done, results, d);
  }

  lemma {:induction false} CompletedHistory<R(!new)>(w: Workflow<R>, plan: Plan, k: nat, repo: R, results: Captures)
    returns (done: seq<Done<R>>)
    requires k <= |plan.calls| && CompletedTo(w, plan, k, repo, results)
    ensures |done| == k && AllDone(w, plan, done) && Holds(w, plan, done, results) && Met(w, done, k) == repo
    decreases k
  {
    if k == 0 {
      return [];
    }
    var repo0, results0 :| CompletedFrom(w, plan, k, repo0, results0, repo, results);
    var front := CompletedHistory(w, plan, k - 1, repo0, results0);
    var d := NextDone(w, plan, front, results0, repo, results);
    done := front + [d];
  }

  /** In every run, whatever the faults: each completed call ran the first tool of its name, and received its arguments
      with each `$tool.field` replaced by that field of the latest earlier completed call of the tool that captured
      anything.  What such calls captured last is what the run holds in the end. */
  lemma CallsReceiveCaptures<R(!new)>(w: Workflow<R>, plan: Plan) returns (done: seq<Done<R>>)
    ensures var last := Run(w, plan).1;
            && |done| == last.index && AllDone(w, plan, done) && Holds(w, plan, done, last.results)
            && (last.index == |plan.calls| ==> last.repo == Met(w, done, |done|))
  {
    var last := Run(w, plan).1;
    RunInPlanOrder(w, plan);
    var repo0, n: nat :| UnderWay(w, plan, last, repo0, n);
    done := CompletedHistory(w, plan, last.index, repo0, last.results);
  }

  // ----- where a run stops -----

  /** The tool needs an approval that the plan does not have. */
  ghost predicate NeedsApproval<R>(w: Workflow<R>, plan: Plan, tool: Tool<R>) {
    && !tool.safe && tool.name in w.expectation.protectedTools
    && w.expectation.gateRequired && !plan.gateVerified
  }

  ghost predicate NoTool<R>(w: Workflow<R>, plan: Plan, i: nat) {
    i < |plan.calls| && forall t | t in w.tools :: t.name != plan.calls[i].tool
  }

  ghost predicate Unapproved<R(!new)>(w: Workflow<R>, plan: Plan, i: nat) {
    i < |plan.calls| && exists tool :: FirstNamed(w.tools, plan.calls[i].tool, tool) && NeedsApproval(w, plan, tool)
  }

  /** Counters while the run goes on. */
  ghost predicate Going<R>(p: Progress<R>) {
    p.safetyOk && |p.toolCalls| == p.index + p.retries && |p.errors| == p.retries && p.attempts <= MAX_RETRIES_PER_CALL
  }

  /** Why a run ended at `q`, and what its counters then say. */
  ghost predicate Ended<R(!new)>(w: Workflow<R>, plan: Plan, exit: Exit, q: Progress<R>) {
    && (exit == Completed <==> q.index == |plan.calls|)
    && (exit == UnknownTool <==> NoTool(w, plan, q.index))
    && (exit == GateBlocked <==> Unapproved(w, plan, q.index))
    && (exit == RetriesExhausted <==> q.attempts == 3)
    && (q.safetyOk <==> exit == Completed || exit == Crashed)
    && |q.toolCalls| == q.index + q.retries + (if exit == Completed || exit == UnknownTool then 0 else 1)
    && |q.errors| == q.retries + (if q.safetyOk then 0 else if exit == RetriesExhausted then 2 else 1)
  }

  lemma FirstIsUnique<R>(tools: seq<Tool<R>>, name: string, s: Tool<R>, t: Tool<R>)
    requires FirstNamed(tools, name, s) && FirstNamed(tools, name, t)
    ensures s == t
  {
    var i :| 0 <= i < |tools| && tools[i] == s && forall j | 0 <= j < i :: tools[j].name != name;
    var k :| 0 <= k < |tools| && tools[k] == t && forall j | 0 <= j < k :: tools[j].name != name;
  }

  lemma KindOfCall<R(!new)>(w: Workflow<R>, plan: Plan, i: nat)
    requires i < |plan.calls|
    ensures var tool := FindTool(w.tools, plan.calls[i].tool);
            && (NoTool(w, plan, i) <==> tool.None?)
            && (Unapproved(w, plan, i) <==> tool.Some? && Gated(w, plan, tool.value))
  {
    var name := plan.calls[i].tool;
    FindToolIsFirst(w.tools, name);
    if tool :| FirstNamed(w.tools, name, tool) && NeedsApproval(w, plan, tool) {
      assert tool in w.tools && tool.name == name;
      FirstIsUnique(w.tools, name, tool, FindTool(w.tools, name).value);
    }
  }

  /** The next call is known and needs no missing approval. */
  ghost predicate Clear<R(!new)>(w: Workflow<R>, plan: Plan, i: nat) {
    !NoTool(w, plan, i) && !Unapproved(w, plan, i)
  }

  lemma AdvanceGoes<R(!new)>(w: Workflow<R>, plan: Plan, p: Progress<R>)
    requires p.index < |plan.calls| && Going(p) && Advance(w, plan, p).Go?
    ensures Going(Advance(w, plan, p).next) && Clear(w, plan, p.index)
  {
    KindOfCall(w, plan, p.index);
  }

  lemma AdvanceStops<R(!new)>(w: Workflow<R>, plan: Plan, p: Progress<R>)
    requires p.index < |plan.calls| && Going(p) && Advance(w, plan, p).Stop?
    ensures Ended(w, plan, Advance(w, plan, p).exit, Advance(w, plan, p).last)
  {
    KindOfCall(w, plan, p.index);
  }

  /** The first pass of a run that is not over, and where it leads. */
  lemma FirstPass<R(!new)>(w: Workflow<R>, plan: Plan, p: Progress<R>, end: (Exit, Progress<R>)) returns (m: Move<R>)
    requires p.index < |plan.calls| && Going(p) && end == Exec(w, plan, p)
    ensures m.Stop? ==> end == (m.exit, m.last) && Ended(w, plan, m.exit, m.last) && m.last.index == p.index
    ensures m.Go? ==>
              && Going(m.next) && Clear(w, plan, p.index) && p.index <= m.next.index <= |plan.calls|
              && (m.next.index == p.index ==> m.next.attempts == p.attempts + 1) && m.next.index <= p.index + 1
              && end == Exec(w, plan, m.next)
  {
    m := Advance(w, plan, p);
    AdvanceMeasure(w, plan, p);
    if m.Go? {
      AdvanceGoes(w, plan, p);
    } else {
      AdvanceStops(w, plan, p);
    }
  }

  /** All calls from `i` up to `k` are clear. */
  ghost predicate ClearTo<R(!new)>(w: Workflow<R>, plan: Plan, i: nat, k: nat) {
    forall j: nat | i <= j < k :: Clear(w, plan, j)
  }

  lemma NoPass<R(!new)>(w: Workflow<R>, plan: Plan, p: Progress<R>, end: (Exit, Progress<R>))
    requires p.index == |plan.calls| && Going(p) && end == Exec(w, plan, p)
    ensures end == (Completed, p) && Ended(w, plan, end.0, end.1) && ClearTo(w, plan, p.index, p.index)
  {
  }

  lemma ClearFrom<R(!new)>(w: Workflow<R>, plan: Plan, i: nat, j: nat, k: nat)
    requires Clear(w, plan, i) && i <= j <= i + 1 && ClearTo(w, plan, j, k)
    ensures ClearTo(w, plan, i, k)
  {
  }

  lemma {:induction false} ExecEnds<R(!new)>(w: Workflow<R>, plan: Plan, p: Progress<R>, end: (Exit, Progress<R>))
    requires p.index <= |plan.calls| && Going(p) && end == Exec(w, plan, p)
    ensures Ended(w, plan, end.0, end.1) && ClearTo(w, plan, p.index, end.1.index)
    decreases |plan.calls| - p.index, MAX_RETRIES_PER_CALL - p.attempts
  {
    if p.index == |plan.calls| {
      NoPass(w, plan, p, end);
    } else {
      var m := FirstPass(w, plan, p, end);
      if m.Go? {
        ExecEnds(w, plan, m.next, end);
        ClearFrom(w, plan, p.index, m.next.index, end.1.index);
      }
    }
  }

  /** A run stops at the first call whose tool is unknown or needs a missing approval, unless it was over before; the
      safety flag, the selections and the recorded errors follow from why it ended and how often it retried. */
  lemma RunEnds<R(!new)>(w: Workflow<R>, plan: Plan)
    ensures var (exit, last) := Run(w, plan);
            Ended(w, plan, exit, last) && ClearTo(w, plan, 0, last.index)
  {
    ExecEnds(w, plan, Start(w), Run(w, plan));
  }

  // ----- which entry decides a call -----

  /** Entry `i` answers the call: same tool, every declared argument prints alike, and it may still fire. */
  ghost predicate Answers(entries: seq<Entry>, consumed: set<nat>, tool: string, arguments: Args, i: nat) {
    && i < |entries| && entries[i].tool == tool && (i !in consumed || entries[i].repeating)
    && forall k | k in entries[i].arguments ::
         Print(entries[i].arguments[k]) == if k in arguments then Print(arguments[k]) else "None"
  }

  /** Entry `i` answers, and every earlier entry that answers is a delay. */
  ghost predicate Reached(entries: seq<Entry>, consumed: set<nat>, tool: string, arguments: Args, i: nat) {
    && Answers(entries, consumed, tool, arguments, i)
    && forall j: nat | j < i && Answers(entries, consumed, tool, arguments, j) :: entries[j].kind.Delay?
  }

  /** The scan went through the entries before `i`, all of whose answering ones are delays. */
  ghost predicate ScannedTo(entries: seq<Entry>, before: set<nat>, now: set<nat>, tool: string, arguments: Args, i: nat)
  {
    && (forall j: nat | j < i && Answers(entries, before, tool, arguments, j) :: entries[j].kind.Delay?)
    && (forall j: nat :: j in now <==> j in before || (j < i && Answers(entries, before, tool, arguments, j)))
  }

  ghost predicate Decided(entries: seq<Entry>, before: set<nat>, tool: string, arguments: Args, after: set<nat>,
                          fault: Fault)
  {
    && (fault.TimeoutRaised? <==> exists i: nat ::
          Reached(entries, before, tool, arguments, i) && entries[i].kind in {Timeout, TransientError})
    && (fault.ScriptCrashed? <==> exists i: nat ::
          Reached(entries, before, tool, arguments, i) && entries[i].kind == MalformedResponse)
    && (forall i: nat :: i in after <==> i in before || Reached(entries, before, tool, arguments, i))
  }

  lemma {:induction false} ScanDecides(entries: seq<Entry>, before: set<nat>, now: set<nat>, tool: string,
                                       arguments: Args, i: nat)
    requires i <= |entries| && ScannedTo(entries, before, now, tool, arguments, i)
    ensures var (after, fault) := ApplyFrom(entries, i, now, tool, arguments);
            Decided(entries, before, tool, arguments, after, fault)
    decreases |entries| - i
  {
    if i < |entries| {
      assert Matches(entries[i], tool, arguments) && (i !in now || entries[i].repeating)
             <==> Answers(entries, before, tool, arguments, i);
      if !Answers(entries, before, tool, arguments, i) {
        ScanDecides(entries, before, now, tool, arguments, i + 1);
      } else if entries[i].kind.Delay? {
        ScanDecides(entries, before, now + {i}, tool, arguments, i + 1);
      } else {
        assert Reached(entries, before, tool, arguments, i);
      }
    }
  }

  /** The first entry that answers a call and is not a delay decides it: a timeout or transient error is raised, a
      malformed one crashes; the entries up to it that answer are used up, and without one the call goes through. */
  lemma ScriptDecides(entries: seq<Entry>, consumed: set<nat>, tool: string, arguments: Args)
    ensures var (after, fault) := ApplyFrom(entries, 0, consumed, tool, arguments);
            Decided(entries, consumed, tool, arguments, after, fault)
  {
    ScanDecides(entries, consumed, consumed, tool, arguments, 0);
  }
}
