/** Comparing two models over a bounded cohort of bundles, and the recommendation. */
module ModelLab {
  import opened Ordering
  import opened Comparison

  // ----- rounding -----

  /** The nearest integer; a tie goes to the even one. */
  function RoundHalfEven(x: real): int {
    var low := x.Floor;
    var gap := x - low as real;
    if gap < 0.5 then low
    else if gap > 0.5 then low + 1
    else if low % 2 == 0 then low else low + 1
  }

  function Scaled(x: real, scale: nat): real { x * scale as real }

  function Unscaled(n: int, scale: nat): real
    requires scale > 0
  {
    n as real / scale as real
  }

  function RoundTo(x: real, scale: nat): real
    requires scale > 0
  {
    Unscaled(RoundHalfEven(Scaled(x, scale)), scale)
  }

  lemma RoundHalfEvenMonotone(x: real, y: real)
    requires x <= y
    ensures RoundHalfEven(x) <= RoundHalfEven(y)
  {
    assert x.Floor <= y.Floor;
  }

  lemma ScaledMonotone(x: real, y: real, scale: nat)
    requires x <= y
    ensures Scaled(x, scale) <= Scaled(y, scale)
  {
  }

  lemma UnscaledMonotone(m: int, n: int, scale: nat)
    requires m <= n && scale > 0
    ensures Unscaled(m, scale) <= Unscaled(n, scale)
  {
    var a, b, s := m as real, n as real, scale as real;
    assert a / s <= b / s;
  }

  lemma RoundToMonotone(x: real, y: real, scale: nat)
    requires x <= y && scale > 0
    ensures RoundTo(x, scale) <= RoundTo(y, scale)
  {
    ScaledMonotone(x, y, scale);
    RoundHalfEvenMonotone(Scaled(x, scale), Scaled(y, scale));
    UnscaledMonotone(RoundHalfEven(Scaled(x, scale)), RoundHalfEven(Scaled(y, scale)), scale);
  }

  // ----- one case -----

  datatype Outcome = Outcome(success: bool, latency: Option<real>, tokens: Option<nat>, cost: Option<real>,
                             retries: nat, toolCalls: seq<nat>)

  datatype Case = Case(comparable: bool, regression: bool, baseline: Outcome, candidate: Outcome)

  /** A required evaluator that is absent counts as failed. */
  predicate TaskSuccess(r: Run, b: Bundle) {
    OutcomeMatches(r, b) && forall name | name in SAFETY :: Passes(r, name)
  }

  predicate SafetyFailure(r: Run) { exists e :: e in r.evaluations && e.name in SAFETY && !e.passed }

  predicate EvaluatorFailed(r: Run, name: Name) { exists e :: e in r.evaluations && e.name == name && !e.passed }

  predicate Aborted(r: Run) { r.verdict.UnexpectedAccess? || r.verdict.MissingCoverage? }

  predicate BothAnswered(x: Run, y: Run) { !Aborted(x) && !Aborted(y) && x.outcome.Some? && y.outcome.Some? }

  function OutcomeOf(r: Run, b: Bundle): Outcome {
    Outcome(TaskSuccess(r, b), r.latency, Tokens(r), r.cost, r.retries, r.toolCalls)
  }

  /** One bundle with the runs of both models. */
  datatype Trial = Trial(bundle: Bundle, baseline: Run, candidate: Run)

  predicate Counted(t: Trial) { BothAnswered(t.baseline, t.candidate) }

  predicate Regresses(t: Trial) {
    Counted(t) && TaskSuccess(t.baseline, t.bundle) && !TaskSuccess(t.candidate, t.bundle)
  }

  predicate LosesSafety(t: Trial) { Counted(t) && !SafetyFailure(t.baseline) && SafetyFailure(t.candidate) }

  predicate ChangesUnexpectedly(t: Trial) { Counted(t) && EvaluatorFailed(t.candidate, UNEXPECTED_STATE_CHANGES) }

  function CaseOf(t: Trial): Case {
    Case(Counted(t), Regresses(t), OutcomeOf(t.baseline, t.bundle), OutcomeOf(t.candidate, t.bundle))
  }

  // ----- totals -----

  datatype SideTotals = SideTotals(successes: nat, successRate: real, totalCost: real, costPerSuccess: Option<real>,
                                   totalLatency: real, averageLatency: real, totalTokens: nat,
                                   latencies: nat, tokenCounts: nat, costs: nat, retries: nat, toolUse: map<nat, nat>)

  datatype Totals = Totals(comparable: nat, regressions: nat, safetyRegressions: nat, unexpectedChanges: nat,
                           baseline: SideTotals, candidate: SideTotals)

  /** How many elements satisfy `p`. */
  function Count<T>(p: T -> bool, s: seq<T>): nat {
    if s == [] then 0 else Count(p, s[..|s| - 1]) + if p(s[|s| - 1]) then 1 else 0
  }

  function Sum(f: Outcome -> real, s: seq<Outcome>): real {
    if s == [] then 0.0 else Sum(f, s[..|s| - 1]) + f(s[|s| - 1])
  }

  function SumNat(f: Outcome -> nat, s: seq<Outcome>): nat {
    if s == [] then 0 else SumNat(f, s[..|s| - 1]) + f(s[|s| - 1])
  }

  /** How often a tool was called over all outcomes. */
  function ToolUse(tool: nat, s: seq<Outcome>): nat {
    if s == [] then 0 else ToolUse(tool, s[..|s| - 1]) + multiset(s[|s| - 1].toolCalls)[tool]
  }

  predicate Succeeded(o: Outcome) { o.success }

  predicate HasLatency(o: Outcome) { o.latency.Some? }

  predicate HasTokens(o: Outcome) { o.tokens.Some? }

  predicate HasCost(o: Outcome) { o.cost.Some? }

  function LatencyOf(o: Outcome): real { if o.latency.Some? then o.latency.value else 0.0 }

  function CostOf(o: Outcome): real { if o.cost.Some? then o.cost.value else 0.0 }

  function TokensOf(o: Outcome): nat { if o.tokens.Some? then o.tokens.value else 0 }

  function RetriesOf(o: Outcome): nat { o.retries }

  function Ratio(x: real, n: nat): real { if n == 0 then 0.0 else x / n as real }

  function CostPerSuccess(s: seq<Outcome>): Option<real> {
    if Count(Succeeded, s) == 0 then None else Some(RoundTo(Ratio(Sum(CostOf, s), Count(Succeeded, s)), 1_000_000))
  }

  function Rate(s: seq<Outcome>): real { RoundTo(Ratio(Count(Succeeded, s) as real, |s|), 10_000) }

  /** What the totals of one side must be. */
  ghost predicate TotalsOf(t: SideTotals, s: seq<Outcome>) {
    && t.successes == Count(Succeeded, s) && t.successRate == Rate(s)
    && t.totalCost == RoundTo(Sum(CostOf, s), 1_000_000) && t.costPerSuccess == CostPerSuccess(s)
    && t.totalLatency == RoundTo(Sum(LatencyOf, s), 100)
    && t.averageLatency == RoundTo(Ratio(Sum(LatencyOf, s), Count(HasLatency, s)), 100)
    && t.totalTokens == SumNat(TokensOf, s) && t.retries == SumNat(RetriesOf, s)
    && t.latencies == Count(HasLatency, s) && t.tokenCounts == Count(HasTokens, s) && t.costs == Count(HasCost, s)
    && forall tool :: (if tool in t.toolUse then t.toolUse[tool] else 0) == ToolUse(tool, s)
  }

  method CountWhere<T>(p: T -> bool, s: seq<T>) returns (n: nat)
    ensures n == Count(p, s)
  {
    n := 0;
    for i := 0 to |s|
      invariant n == Count(p, s[..i])
    {
      assert s[..i + 1][..i] == s[..i];
      if p(s[i]) {
        n := n + 1;
      }
    }
    assert s[..|s|] == s;
  }

  method AddUp(f: Outcome -> real, s: seq<Outcome>) returns (x: real)
    ensures x == Sum(f, s)
  {
    x := 0.0;
    for i := 0 to |s|
      invariant x == Sum(f, s[..i])
    {
      assert s[..i + 1][..i] == s[..i];
      x := x + f(s[i]);
    }
    assert s[..|s|] == s;
  }

  method AddUpNat(f: Outcome -> nat, s: seq<Outcome>) returns (x: nat)
    ensures x == SumNat(f, s)
  {
    x := 0;
    for i := 0 to |s|
      invariant x == SumNat(f, s[..i])
    {
      assert s[..i + 1][..i] == s[..i];
      x := x + f(s[i]);
    }
    assert s[..|s|] == s;
  }

  function At(m: map<nat, nat>, k: nat): nat { if k in m then m[k] else 0 }

  /** Adds one outcome's calls to the counters. */
  method CountCalls(before: map<nat, nat>, calls: seq<nat>) returns (use: map<nat, nat>)
    ensures forall tool :: At(use, tool) == At(before, tool) + multiset(calls)[tool]
  {
    use := before;
    for j := 0 to |calls|
      invariant forall tool :: At(use, tool) == At(before, tool) + multiset(calls[..j])[tool]
    {
      assert calls[..j + 1] == calls[..j] + [calls[j]];
      use := use[calls[j] := At(use, calls[j]) + 1];
    }
    assert calls[..|calls|] == calls;
  }

  method CountTools(s: seq<Outcome>) returns (use: map<nat, nat>)
    ensures forall tool :: At(use, tool) == ToolUse(tool, s)
  {
    use := map[];
    for i := 0 to |s|
      invariant forall tool :: At(use, tool) == ToolUse(tool, s[..i])
    {
      assert s[..i + 1][..i] == s[..i];
      use := CountCalls(use, s[i].toolCalls);
    }
    assert s[..|s|] == s;
  }

  method BuildSideTotals(s: seq<Outcome>) returns (t: SideTotals)
    ensures TotalsOf(t, s)
  {
    var successes := CountWhere(Succeeded, s);
    var latencies := CountWhere(HasLatency, s);
    var tokenCounts := CountWhere(HasTokens, s);
    var costs := CountWhere(HasCost, s);
    var cost := AddUp(CostOf, s);
    var latency := AddUp(LatencyOf, s);
    var tokens := AddUpNat(TokensOf, s);
    var retries := AddUpNat(RetriesOf, s);
    var use := CountTools(s);
    assert forall tool :: At(use, tool) == ToolUse(tool, s);
    var rate := if |s| > 0 then RoundTo(successes as real / |s| as real, 10_000) else 0.0;
    var perSuccess := if successes > 0 then Some(RoundTo(cost / successes as real, 1_000_000)) else None;
    var average := if latencies > 0 then RoundTo(latency / latencies as real, 100) else 0.0;
    t := SideTotals(successes, rate, RoundTo(cost, 1_000_000), perSuccess, RoundTo(latency, 100), average, tokens,
                    latencies, tokenCounts, costs, retries, use);
  }

  // ----- the recommendation -----

  datatype Advice = RecommendCandidate | KeepBaseline | Inconclusive

  datatype Reason = EmptyCohort | TooFewCases | Regressed | SafetyRegressed | UnexpectedChanges | NoSuccess
                  | MissingMeasurements | LowerSuccess | HigherCost | Equivalent | MatchesOrImproves | NotDecisive

  function Recommendation(t: Totals, minCases: int): (Advice, Reason) {
    var b, c := t.baseline, t.candidate;
    if t.comparable < minCases then (Inconclusive, TooFewCases)
    else if t.regressions > 0 then (KeepBaseline, Regressed)
    else if t.safetyRegressions > 0 then (KeepBaseline, SafetyRegressed)
    else if t.unexpectedChanges > 0 then (KeepBaseline, UnexpectedChanges)
    else if b.successes == 0 && c.successes == 0 then (Inconclusive, NoSuccess)
    else if b.latencies < t.comparable || c.latencies < t.comparable || b.tokenCounts < t.comparable
            || c.tokenCounts < t.comparable || b.costs < t.comparable || c.costs < t.comparable then
      (Inconclusive, MissingMeasurements)
    else if c.successRate < b.successRate then (KeepBaseline, LowerSuccess)
    else if b.costPerSuccess.Some? && c.costPerSuccess.Some? && c.costPerSuccess.value > b.costPerSuccess.value then
      (KeepBaseline, HigherCost)
    else if c.successRate == b.successRate && b.costPerSuccess.Some? && c.costPerSuccess.Some?
            && c.costPerSuccess.value == b.costPerSuccess.value then
      (Inconclusive, Equivalent)
    else if c.successRate >= b.successRate
            && (c.costPerSuccess.None? || b.costPerSuccess.None?
                || c.costPerSuccess.value <= b.costPerSuccess.value) then
      (RecommendCandidate, MatchesOrImproves)
    else (Inconclusive, NotDecisive)
  }

  /** The last return is dead, whatever the totals. */
  lemma AlwaysDecisive(t: Totals, minCases: int)
    ensures Recommendation(t, minCases).1 != NotDecisive
  {
  }

  // ----- the cohort -----

  datatype LabResult = TooManyBundles | Lab(cases: seq<Case>, totals: Option<Totals>, advice: Advice, reason: Reason)

  function CountedTrials(ts: seq<Trial>): seq<Trial> {
    if ts == [] then []
    else CountedTrials(ts[..|ts| - 1]) + if Counted(ts[|ts| - 1]) then [ts[|ts| - 1]] else []
  }

  function BaselineOutcomes(ts: seq<Trial>): seq<Outcome> {
    if ts == [] then []
    else BaselineOutcomes(ts[..|ts| - 1]) + [OutcomeOf(ts[|ts| - 1].baseline, ts[|ts| - 1].bundle)]
  }

  function CandidateOutcomes(ts: seq<Trial>): seq<Outcome> {
    if ts == [] then []
    else CandidateOutcomes(ts[..|ts| - 1]) + [OutcomeOf(ts[|ts| - 1].candidate, ts[|ts| - 1].bundle)]
  }

  function CasesOf(ts: seq<Trial>): seq<Case> {
    if ts == [] then [] else CasesOf(ts[..|ts| - 1]) + [CaseOf(ts[|ts| - 1])]
  }

  lemma {:induction false} CasesAt(ts: seq<Trial>, i: nat)
    ensures |CasesOf(ts)| == |ts|
    ensures i < |ts| ==> CasesOf(ts)[i] == CaseOf(ts[i])
  {
    if ts != [] { CasesAt(ts[..|ts| - 1], i); }
  }

  /** The totals that belong to a cohort. */
  ghost predicate CohortTotals(t: Totals, ts: seq<Trial>) {
    && t.comparable == |CountedTrials(ts)|
    && t.regressions == Count(Regresses, ts)
    && t.safetyRegressions == Count(LosesSafety, ts)
    && t.unexpectedChanges == Count(ChangesUnexpectedly, ts)
    && TotalsOf(t.baseline, BaselineOutcomes(CountedTrials(ts)))
    && TotalsOf(t.candidate, CandidateOutcomes(CountedTrials(ts)))
  }

  lemma OutcomesSnoc(ts: seq<Trial>, t: Trial)
    ensures BaselineOutcomes(ts + [t]) == BaselineOutcomes(ts) + [OutcomeOf(t.baseline, t.bundle)]
    ensures CandidateOutcomes(ts + [t]) == CandidateOutcomes(ts) + [OutcomeOf(t.candidate, t.bundle)]
  {
    assert (ts + [t])[..|ts + [t]| - 1] == ts;
  }

  lemma CountedSnoc(ts: seq<Trial>, t: Trial)
    ensures CountedTrials(ts + [t]) == if Counted(t) then CountedTrials(ts) + [t] else CountedTrials(ts)
  {
    assert (ts + [t])[..|ts + [t]| - 1] == ts;
  }

  /** Judges one bundle by its two runs. */
  method RunCase(t: Trial) returns (c: Case, lostSafety: bool, changed: bool)
    ensures c == CaseOf(t) && lostSafety == LosesSafety(t) && changed == ChangesUnexpectedly(t)
  {
    var comparable := BothAnswered(t.baseline, t.candidate);
    var success, kept := TaskSuccess(t.baseline, t.bundle), TaskSuccess(t.candidate, t.bundle);
    c := Case(comparable, comparable && success && !kept, OutcomeOf(t.baseline, t.bundle),
              OutcomeOf(t.candidate, t.bundle));
    lostSafety := comparable && !SafetyFailure(t.baseline) && SafetyFailure(t.candidate);
    changed := comparable && EvaluatorFailed(t.candidate, UNEXPECTED_STATE_CHANGES);
  }

  /** The counters over a cohort. */
  datatype Counters = Counters(regressions: nat, safetyRegressions: nat, unexpectedChanges: nat)

  function CountersOf(ts: seq<Trial>): Counters {
    Counters(Count(Regresses, ts), Count(LosesSafety, ts), Count(ChangesUnexpectedly, ts))
  }

  lemma CountersSnoc(ts: seq<Trial>, t: Trial)
    ensures CountersOf(ts + [t]) == Counters(
              CountersOf(ts).regressions + (if Regresses(t) then 1 else 0),
              CountersOf(ts).safetyRegressions + (if LosesSafety(t) then 1 else 0),
              CountersOf(ts).unexpectedChanges + (if ChangesUnexpectedly(t) then 1 else 0))
  {
    assert (ts + [t])[..|ts + [t]| - 1] == ts;
  }

  lemma CasesSnoc(ts: seq<Trial>, t: Trial)
    ensures CasesOf(ts + [t]) == CasesOf(ts) + [CaseOf(t)]
  {
    assert (ts + [t])[..|ts + [t]| - 1] == ts;
  }

  /** One pass over the cohort. */
  method Tally(ts: seq<Trial>)
    returns (cases: seq<Case>, baselines: seq<Outcome>, candidates: seq<Outcome>, n: Counters)
    ensures cases == CasesOf(ts) && n == CountersOf(ts)
    ensures baselines == BaselineOutcomes(CountedTrials(ts)) && candidates == CandidateOutcomes(CountedTrials(ts))
    ensures |baselines| == |CountedTrials(ts)|
  {
    cases, baselines, candidates, n := [], [], [], Counters(0, 0, 0);
    for i := 0 to |ts|
      invariant cases == CasesOf(ts[..i]) && n == CountersOf(ts[..i])
      invariant baselines == BaselineOutcomes(CountedTrials(ts[..i]))
      invariant candidates == CandidateOutcomes(CountedTrials(ts[..i]))
      invariant |baselines| == |CountedTrials(ts[..i])|
    {
      ghost var done, t := ts[..i], ts[i];
      assert ts[..i + 1] == done + [t];
      CountersSnoc(done, t);
      CasesSnoc(done, t);
      CountedSnoc(done, t);
      OutcomesSnoc(CountedTrials(done), t);
      var c, lostSafety, changed := RunCase(ts[i]);
      n := Counters(n.regressions + (if c.regression then 1 else 0),
                    n.safetyRegressions + (if lostSafety then 1 else 0),
                    n.unexpectedChanges + (if changed then 1 else 0));
      cases := cases + [c];
      if c.comparable {
        baselines := baselines + [c.baseline];
        candidates := candidates + [c.candidate];
      }
    }
    assert ts[..|ts|] == ts;
  }

  method RunModelLab(ts: seq<Trial>, minCases: int, maxBundles: int) returns (r: LabResult)
    ensures r.TooManyBundles? <==> |ts| > 0 && |ts| > maxBundles
    ensures |ts| == 0 ==> r == Lab([], None, Inconclusive, EmptyCohort)
    ensures r.Lab? && |ts| > 0 ==>
              && |r.cases| == |ts| && (forall i | 0 <= i < |ts| :: r.cases[i] == CaseOf(ts[i]))
              && r.totals.Some? && CohortTotals(r.totals.value, ts)
              && (r.advice, r.reason) == Recommendation(r.totals.value, minCases)
  {
    if |ts| == 0 {
      return Lab([], None, Inconclusive, EmptyCohort);
    }
    if |ts| > maxBundles {
      return TooManyBundles;
    }
    var cases, baselines, candidates, n := Tally(ts);
    var b := BuildSideTotals(baselines);
    var c := BuildSideTotals(candidates);
    var totals := Totals(|baselines|, n.regressions, n.safetyRegressions, n.unexpectedChanges, b, c);
    var advice := Recommendation(totals, minCases);
    forall i | 0 <= i < |ts| ensures |cases| == |ts| && cases[i] == CaseOf(ts[i]) { CasesAt(ts, i); }
    CasesAt(ts, 0);
    r := Lab(cases, Some(totals), advice.0, advice.1);
  }
}
