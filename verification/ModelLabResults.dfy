/** What the totals and the recommendation of a cohort mean. */
module ModelLabResults {
  import opened Ordering
  import opened Comparison
  import opened ModelLab

  predicate Improves(t: Trial) {
    Counted(t) && !TaskSuccess(t.baseline, t.bundle) && TaskSuccess(t.candidate, t.bundle)
  }

  function BaselineSuccesses(ts: seq<Trial>): nat { Count(Succeeded, BaselineOutcomes(CountedTrials(ts))) }

  function CandidateSuccesses(ts: seq<Trial>): nat { Count(Succeeded, CandidateOutcomes(CountedTrials(ts))) }

  lemma SuccessesSnoc(ts: seq<Trial>, t: Trial)
    ensures BaselineSuccesses(ts + [t])
         == BaselineSuccesses(ts) + if Counted(t) && TaskSuccess(t.baseline, t.bundle) then 1 else 0
    ensures CandidateSuccesses(ts + [t])
         == CandidateSuccesses(ts) + if Counted(t) && TaskSuccess(t.candidate, t.bundle) then 1 else 0
  {
    CountedSnoc(ts, t);
    OutcomesSnoc(CountedTrials(ts), t);
  }

  lemma CountSnoc<T>(p: T -> bool, s: seq<T>, x: T)
    ensures Count(p, s + [x]) == Count(p, s) + if p(x) then 1 else 0
  {
    assert (s + [x])[..|s + [x]| - 1] == s;
  }

  /** Successes move from one side to the other only through regressions and improvements. */
  lemma {:induction false} SuccessesBalance(ts: seq<Trial>)
    ensures BaselineSuccesses(ts) + Count(Improves, ts) == CandidateSuccesses(ts) + Count(Regresses, ts)
  {
    if ts != [] {
      var front, last := ts[..|ts| - 1], ts[|ts| - 1];
      assert ts == front + [last];
      SuccessesBalance(front);
      SuccessesSnoc(front, last);
      CountSnoc(Improves, front, last);
      CountSnoc(Regresses, front, last);
    }
  }

  lemma {:induction false} CountZero<T>(p: T -> bool, s: seq<T>)
    ensures Count(p, s) == 0 <==> forall x | x in s :: !p(x)
  {
    if s != [] {
      CountZero(p, s[..|s| - 1]);
      assert s == s[..|s| - 1] + [s[|s| - 1]];
    }
  }

  lemma {:induction false} OutcomesLength(ts: seq<Trial>)
    ensures |BaselineOutcomes(ts)| == |ts| && |CandidateOutcomes(ts)| == |ts|
  {
    if ts != [] { OutcomesLength(ts[..|ts| - 1]); }
  }

  /** More successes never round to a lower rate. */
  lemma RateMonotone(s: seq<Outcome>, s': seq<Outcome>)
    requires |s| == |s'| && Count(Succeeded, s) <= Count(Succeeded, s')
    ensures Rate(s) <= Rate(s')
  {
    var a, b, n := Count(Succeeded, s), Count(Succeeded, s'), |s|;
    RatioMonotone(a as real, b as real, n);
    RoundToMonotone(Ratio(a as real, n), Ratio(b as real, n), 10_000);
  }

  lemma RatioMonotone(a: real, b: real, n: nat)
    requires a <= b
    ensures Ratio(a, n) <= Ratio(b, n)
  {
    if n > 0 {
      var d := n as real;
      assert a / d <= b / d;
    }
  }

  /** Without a regression the candidate succeeds at least as often, so it is never turned down for a
      lower success rate. */
  lemma LowerSuccessIsDead(t: Totals, ts: seq<Trial>, minCases: int)
    requires CohortTotals(t, ts)
    ensures t.regressions == 0 ==> t.baseline.successes <= t.candidate.successes
                                   && t.baseline.successRate <= t.candidate.successRate
    ensures Recommendation(t, minCases).1 != LowerSuccess
  {
    SuccessesBalance(ts);
    OutcomesLength(CountedTrials(ts));
    if t.regressions == 0 {
      RateMonotone(BaselineOutcomes(CountedTrials(ts)), CandidateOutcomes(CountedTrials(ts)));
    }
  }

  // ----- a recommendation, in terms of the cases -----

  predicate FullyMeasured(r: Run) { r.latency.Some? && r.totalTokens > 0 && r.cost.Some? }

  ghost predicate Sound(t: Trial) {
    && !Regresses(t) && !LosesSafety(t) && !ChangesUnexpectedly(t)
    && (Counted(t) ==> FullyMeasured(t.baseline) && FullyMeasured(t.candidate))
  }

  lemma {:induction false} CountedMembers(ts: seq<Trial>, t: Trial)
    ensures t in CountedTrials(ts) <==> t in ts && Counted(t)
  {
    if ts != [] {
      var front, last := ts[..|ts| - 1], ts[|ts| - 1];
      assert ts == front + [last];
      CountedMembers(front, t);
    }
  }

  /** A property is counted in every outcome exactly when every trial has it. */
  lemma {:induction false} BaselinesAll(p: Outcome -> bool, ts: seq<Trial>)
    ensures Count(p, BaselineOutcomes(ts)) <= |ts|
    ensures Count(p, BaselineOutcomes(ts)) == |ts| <==> forall t | t in ts :: p(OutcomeOf(t.baseline, t.bundle))
  {
    if ts != [] {
      var front, last := ts[..|ts| - 1], ts[|ts| - 1];
      BaselinesAll(p, front);
      assert forall t :: t in ts <==> t in front || t == last by { assert ts == front + [last]; }
      CountSnoc(p, BaselineOutcomes(front), OutcomeOf(last.baseline, last.bundle));
    }
  }

  lemma {:induction false} CandidatesAll(p: Outcome -> bool, ts: seq<Trial>)
    ensures Count(p, CandidateOutcomes(ts)) <= |ts|
    ensures Count(p, CandidateOutcomes(ts)) == |ts| <==> forall t | t in ts :: p(OutcomeOf(t.candidate, t.bundle))
  {
    if ts != [] {
      var front, last := ts[..|ts| - 1], ts[|ts| - 1];
      CandidatesAll(p, front);
      assert forall t :: t in ts <==> t in front || t == last by { assert ts == front + [last]; }
      CountSnoc(p, CandidateOutcomes(front), OutcomeOf(last.candidate, last.bundle));
    }
  }

  /** Both sides have the measurement in every case. */
  ghost predicate Everywhere(p: Outcome -> bool, ts: seq<Trial>) {
    forall t | t in ts :: p(OutcomeOf(t.baseline, t.bundle)) && p(OutcomeOf(t.candidate, t.bundle))
  }

  lemma EverywhereIff(p: Outcome -> bool, ts: seq<Trial>)
    ensures !(Count(p, BaselineOutcomes(ts)) < |ts| || Count(p, CandidateOutcomes(ts)) < |ts|) <==> Everywhere(p, ts)
  {
    BaselinesAll(p, ts);
    CandidatesAll(p, ts);
  }

  ghost predicate AllSound(ts: seq<Trial>) { forall t | t in ts :: Sound(t) }

  ghost predicate AllMeasuredIn(ts: seq<Trial>) {
    forall t | t in CountedTrials(ts) :: FullyMeasured(t.baseline) && FullyMeasured(t.candidate)
  }

  /** The counters and measurement counts pass exactly when every case is sound. */
  lemma SoundIff(t: Totals, ts: seq<Trial>)
    requires CohortTotals(t, ts)
    ensures (&& t.regressions == 0 && t.safetyRegressions == 0 && t.unexpectedChanges == 0
             && !(|| t.baseline.latencies < t.comparable || t.candidate.latencies < t.comparable
                  || t.baseline.tokenCounts < t.comparable || t.candidate.tokenCounts < t.comparable
                  || t.baseline.costs < t.comparable || t.candidate.costs < t.comparable))
            <==> AllSound(ts)
  {
    CountZero(Regresses, ts);
    CountZero(LosesSafety, ts);
    CountZero(ChangesUnexpectedly, ts);
    MeasuredIff(t, ts);
    assert AllMeasuredIn(ts) <==>
             forall x | x in ts && Counted(x) :: FullyMeasured(x.baseline) && FullyMeasured(x.candidate) by {
      forall x ensures x in CountedTrials(ts) <==> x in ts && Counted(x) { CountedMembers(ts, x); }
    }
  }

  lemma MeasuredIff(t: Totals, ts: seq<Trial>)
    requires CohortTotals(t, ts)
    ensures !(|| t.baseline.latencies < t.comparable || t.candidate.latencies < t.comparable
              || t.baseline.tokenCounts < t.comparable || t.candidate.tokenCounts < t.comparable
              || t.baseline.costs < t.comparable || t.candidate.costs < t.comparable)
            <==> AllMeasuredIn(ts)
  {
    var counted := CountedTrials(ts);
    EverywhereIff(HasLatency, counted);
    EverywhereIff(HasTokens, counted);
    EverywhereIff(HasCost, counted);
    MeasuredPointwise(counted);
  }

  lemma MeasuredPointwise(ts: seq<Trial>)
    ensures Everywhere(HasLatency, ts) && Everywhere(HasTokens, ts) && Everywhere(HasCost, ts)
            <==> forall t | t in ts :: FullyMeasured(t.baseline) && FullyMeasured(t.candidate)
  {
  }

  /** How the candidate's cost per success compares, when the baseline has successes. */
  ghost predicate WorthIt(ts: seq<Trial>) {
    var b, c := BaselineOutcomes(CountedTrials(ts)), CandidateOutcomes(CountedTrials(ts));
    BaselineSuccesses(ts) > 0 && CandidateSuccesses(ts) > 0 ==>
      && CostPerSuccess(c).value <= CostPerSuccess(b).value
      && (CostPerSuccess(c).value < CostPerSuccess(b).value || Rate(b) < Rate(c))
  }

  /** A candidate is recommended exactly when there are enough cases, none of them regresses in task success, in
      safety or in state, every one is fully measured on both sides, the candidate succeeds at all, and it costs
      no more per success, and less unless its success rate is higher. */
  lemma RecommendedIff(t: Totals, ts: seq<Trial>, minCases: int)
    requires CohortTotals(t, ts)
    ensures Recommendation(t, minCases).0 == RecommendCandidate <==>
              && |CountedTrials(ts)| >= minCases && AllSound(ts) && CandidateSuccesses(ts) > 0 && WorthIt(ts)
  {
    SoundIff(t, ts);
    LowerSuccessIsDead(t, ts, minCases);
    AlwaysDecisive(t, minCases);
  }

  /** A recommended candidate keeps every success of the baseline, case by case. */
  lemma RecommendationKeepsSuccesses(t: Totals, ts: seq<Trial>, minCases: int, x: Trial)
    requires CohortTotals(t, ts) && Recommendation(t, minCases).0 == RecommendCandidate
    requires x in ts && Counted(x) && TaskSuccess(x.baseline, x.bundle)
    ensures TaskSuccess(x.candidate, x.bundle) && FullyMeasured(x.candidate)
  {
    RecommendedIff(t, ts, minCases);
    assert Sound(x);
  }

  // ----- every answer, in terms of the cases -----

  ghost predicate SomeTrial(p: Trial -> bool, ts: seq<Trial>) { exists t :: t in ts && p(t) }

  /** Some counted case lacks a measurement. */
  ghost predicate LacksMeasurement(ts: seq<Trial>) {
    exists t :: t in ts && Counted(t) && !(FullyMeasured(t.baseline) && FullyMeasured(t.candidate))
  }

  ghost predicate BothSucceed(ts: seq<Trial>) { BaselineSuccesses(ts) > 0 && CandidateSuccesses(ts) > 0 }

  /** The candidate's cost per success less the baseline's. */
  ghost function ExtraCost(ts: seq<Trial>): real
    requires BothSucceed(ts)
  {
    var counted := CountedTrials(ts);
    CostPerSuccess(CandidateOutcomes(counted)).value - CostPerSuccess(BaselineOutcomes(counted)).value
  }

  /** No case speaks against the candidate: none regresses in task success, in safety or in state. */
  ghost predicate NoneWorse(ts: seq<Trial>) {
    !SomeTrial(Regresses, ts) && !SomeTrial(LosesSafety, ts) && !SomeTrial(ChangesUnexpectedly, ts)
  }

  /** What the cohort looks like for each reason that an answer can give. */
  ghost predicate Reasoned(ts: seq<Trial>, minCases: int, reason: Reason) {
    if |CountedTrials(ts)| < minCases then reason == TooFewCases
    else
      match reason
      case Regressed => SomeTrial(Regresses, ts)
      case SafetyRegressed => !SomeTrial(Regresses, ts) && SomeTrial(LosesSafety, ts)
      case UnexpectedChanges =>
        !SomeTrial(Regresses, ts) && !SomeTrial(LosesSafety, ts) && SomeTrial(ChangesUnexpectedly, ts)
      case NoSuccess => NoneWorse(ts) && BaselineSuccesses(ts) == CandidateSuccesses(ts) == 0
      case MissingMeasurements => NoneWorse(ts) && CandidateSuccesses(ts) > 0 && LacksMeasurement(ts)
      case HigherCost => AllSound(ts) && BothSucceed(ts) && ExtraCost(ts) > 0.0
      case Equivalent =>
        && AllSound(ts) && BothSucceed(ts) && ExtraCost(ts) == 0.0
        && Rate(CandidateOutcomes(CountedTrials(ts))) == Rate(BaselineOutcomes(CountedTrials(ts)))
      case MatchesOrImproves => AllSound(ts) && CandidateSuccesses(ts) > 0 && WorthIt(ts)
      case _ => false
  }

  lemma SomeTrialIffCounted(p: Trial -> bool, ts: seq<Trial>)
    ensures SomeTrial(p, ts) <==> Count(p, ts) > 0
  {
    CountZero(p, ts);
  }

  lemma SoundIffNoneWorse(ts: seq<Trial>)
    ensures AllSound(ts) <==> NoneWorse(ts) && !LacksMeasurement(ts)
  {
    if AllSound(ts) {
      forall t | t in ts
        ensures !Regresses(t) && !LosesSafety(t) && !ChangesUnexpectedly(t)
        ensures Counted(t) ==> FullyMeasured(t.baseline) && FullyMeasured(t.candidate)
      {
        assert Sound(t);
      }
    }
  }

  /** The reason of an answer is exactly the one that the cohort gives. */
  lemma ReasonIff(t: Totals, ts: seq<Trial>, minCases: int, reason: Reason)
    requires CohortTotals(t, ts)
    ensures Recommendation(t, minCases).1 == reason <==> Reasoned(ts, minCases, reason)
  {
    TotalsShow(t, ts);
    LowerSuccessIsDead(t, ts, minCases);
    ReasonFollows(t, ts, minCases, reason);
  }

  /** What the recommendation reads in the totals, in terms of the cases. */
  ghost predicate Shows(t: Totals, ts: seq<Trial>) {
    && t.comparable == |CountedTrials(ts)|
    && (t.regressions > 0 <==> SomeTrial(Regresses, ts))
    && (t.safetyRegressions > 0 <==> SomeTrial(LosesSafety, ts))
    && (t.unexpectedChanges > 0 <==> SomeTrial(ChangesUnexpectedly, ts))
    && t.baseline.successes == BaselineSuccesses(ts) && t.candidate.successes == CandidateSuccesses(ts)
    && t.baseline.successRate == Rate(BaselineOutcomes(CountedTrials(ts)))
    && t.candidate.successRate == Rate(CandidateOutcomes(CountedTrials(ts)))
    && t.baseline.costPerSuccess == CostPerSuccess(BaselineOutcomes(CountedTrials(ts)))
    && t.candidate.costPerSuccess == CostPerSuccess(CandidateOutcomes(CountedTrials(ts)))
    && (NoneWorse(ts) ==>
          (LacksMeasurement(ts) <==>
             || t.baseline.latencies < t.comparable || t.candidate.latencies < t.comparable
             || t.baseline.tokenCounts < t.comparable || t.candidate.tokenCounts < t.comparable
             || t.baseline.costs < t.comparable || t.candidate.costs < t.comparable))
    && (NoneWorse(ts) ==> BaselineSuccesses(ts) <= CandidateSuccesses(ts))
  }

  lemma TotalsShow(t: Totals, ts: seq<Trial>)
    requires CohortTotals(t, ts)
    ensures Shows(t, ts)
  {
    SoundIff(t, ts);
    SoundIffNoneWorse(ts);
    SomeTrialIffCounted(Regresses, ts);
    SomeTrialIffCounted(LosesSafety, ts);
    SomeTrialIffCounted(ChangesUnexpectedly, ts);
    SuccessesBalance(ts);
  }

  lemma ReasonFollows(t: Totals, ts: seq<Trial>, minCases: int, reason: Reason)
    requires Shows(t, ts) && Recommendation(t, minCases).1 != LowerSuccess
    ensures Recommendation(t, minCases).1 == reason <==> Reasoned(ts, minCases, reason)
  {
    SoundIffNoneWorse(ts);
    AlwaysDecisive(t, minCases);
  }

  /** The baseline is kept exactly when there are enough cases and one of them regresses in task success, in safety or
      in state, or none does, all are fully measured, both sides succeed and the candidate costs more per success. */
  lemma KeepBaselineIff(t: Totals, ts: seq<Trial>, minCases: int)
    requires CohortTotals(t, ts)
    ensures Recommendation(t, minCases).0 == KeepBaseline <==>
              && |CountedTrials(ts)| >= minCases
              && (!NoneWorse(ts) || (AllSound(ts) && BothSucceed(ts) && ExtraCost(ts) > 0.0))
  {
    ReasonIff(t, ts, minCases, Recommendation(t, minCases).1);
    SoundIffNoneWorse(ts);
  }

  /** Nothing is advised exactly when there are too few cases, or none is worse and no side succeeds, a measurement is
      missing, or success rate and cost per success are equal. */
  lemma InconclusiveIff(t: Totals, ts: seq<Trial>, minCases: int)
    requires CohortTotals(t, ts)
    ensures Recommendation(t, minCases).0 == Inconclusive <==>
              || |CountedTrials(ts)| < minCases
              || (NoneWorse(ts) && (CandidateSuccesses(ts) == 0 || LacksMeasurement(ts)))
              || Reasoned(ts, minCases, Equivalent)
  {
    ReasonIff(t, ts, minCases, Recommendation(t, minCases).1);
    SoundIffNoneWorse(ts);
  }

  // ----- what is counted of a case -----

  /** The run answered, and neither left its sandbox nor lacked a fixture. */
  ghost predicate Answered(r: Run) { r.outcome != None && r.verdict in {Reproduced, Accepted, Failed} }

  /** The expected answer, with every safety evaluator reporting, and reporting a pass last. */
  ghost predicate RightAndSafe(r: Run, b: Bundle) {
    r.outcome == Some(b.expectedOutcome) && forall name | name in SAFETY :: LastResultPasses(r.evaluations, name)
  }

  /** Some reported result of these evaluators is a failure. */
  ghost predicate ReportsFailure(r: Run, names: set<Name>) {
    exists i :: 0 <= i < |r.evaluations| && r.evaluations[i].name in names && r.evaluations[i].passed == false
  }

  /** The run's own measurements; no tokens at all count as not measured. */
  ghost predicate Records(r: Run, o: Outcome) {
    && o.latency == r.latency && o.cost == r.cost && o.retries == r.retries && o.toolCalls == r.toolCalls
    && o.tokens == if r.totalTokens == 0 then None else Some(r.totalTokens)
  }

  /** A case counts when both runs answered; a side succeeds by a right and safe run, each kind of regression needs a
      counted case, and the measurements are those of the runs. */
  lemma CaseMeans(t: Trial)
    ensures var c := CaseOf(t);
            && (c.comparable <==> Answered(t.baseline) && Answered(t.candidate))
            && (c.baseline.success <==> RightAndSafe(t.baseline, t.bundle))
            && (c.candidate.success <==> RightAndSafe(t.candidate, t.bundle))
            && (c.regression <==> c.comparable && c.baseline.success && !c.candidate.success)
            && Records(t.baseline, c.baseline) && Records(t.candidate, c.candidate)
            && (LosesSafety(t) <==>
                  c.comparable && ReportsFailure(t.candidate, SAFETY) && !ReportsFailure(t.baseline, SAFETY))
            && (ChangesUnexpectedly(t) <==>
                  c.comparable && ReportsFailure(t.candidate, {UNEXPECTED_STATE_CHANGES}))
  {
    forall name
      ensures Passes(t.baseline, name) <==> LastResultPasses(t.baseline.evaluations, name)
      ensures Passes(t.candidate, name) <==> LastResultPasses(t.candidate.evaluations, name)
    {
      PassedIffLast(t.baseline.evaluations, name);
      PassedIffLast(t.candidate.evaluations, name);
    }
  }

  /** Rounding finds the nearest multiple, and the even one of two that are equally near. */
  lemma RoundsToNearest(x: real, m: int)
    ensures -0.5 <= x - RoundHalfEven(x) as real <= 0.5
    ensures m % 2 == 0 && -0.5 <= x - m as real <= 0.5 ==> RoundHalfEven(x) == m
  {
  }

  // ----- the totals, one outcome at a time -----

  /** The measurement, or nothing where there is none. */
  ghost function OrZero(x: Option<real>): real { match x case Some(v) => v case None => 0.0 }

  /** What one more outcome adds to each counter and sum of its side. */
  lemma OneMoreOutcome(s: seq<Outcome>, o: Outcome, tool: nat)
    ensures var t := s + [o];
            && Count(Succeeded, t) == Count(Succeeded, s) + (if o.success then 1 else 0)
            && Count(HasLatency, t) == Count(HasLatency, s) + (if o.latency == None then 0 else 1)
            && Count(HasTokens, t) == Count(HasTokens, s) + (if o.tokens == None then 0 else 1)
            && Count(HasCost, t) == Count(HasCost, s) + (if o.cost == None then 0 else 1)
            && Sum(LatencyOf, t) == Sum(LatencyOf, s) + OrZero(o.latency)
            && Sum(CostOf, t) == Sum(CostOf, s) + OrZero(o.cost)
            && SumNat(TokensOf, t) == SumNat(TokensOf, s) + (if o.tokens == None then 0 else o.tokens.value)
            && SumNat(RetriesOf, t) == SumNat(RetriesOf, s) + o.retries
            && ToolUse(tool, t) == ToolUse(tool, s) + multiset(o.toolCalls)[tool]
  {
    assert (s + [o])[..|s + [o]| - 1] == s;
  }

  /** `x` is `n` of `scale` parts, and `y` is at most half a part away. */
  ghost predicate IsNearestPart(x: real, y: real, scale: real, n: int) {
    x * scale == n as real && -0.5 <= y * scale - n as real <= 0.5
  }

  /** `x` is `y` to the nearest of `scale` parts. */
  ghost predicate IsRounding(x: real, y: real, scale: real) { exists n: int :: IsNearestPart(x, y, scale, n) }

  lemma RoundToRounds(y: real, scale: nat)
    requires scale > 0
    ensures IsRounding(RoundTo(y, scale), y, scale as real)
  {
    var n := RoundHalfEven(Scaled(y, scale));
    RoundsToNearest(Scaled(y, scale), n);
    assert (n as real / scale as real) * scale as real == n as real;
    assert IsNearestPart(RoundTo(y, scale), y, scale as real, n);
  }

  /** The mean of the measured values; zero when there are none. */
  ghost function Mean(sum: real, n: nat): real { if n == 0 then 0.0 else sum / n as real }

  /** Costs are given to a millionth, latencies to a hundredth and rates to four places, and averages divide by the
      successes, the measured latencies and the outcomes. */
  lemma TotalsAreRounded(t: SideTotals, s: seq<Outcome>)
    requires TotalsOf(t, s)
    ensures IsRounding(t.totalCost, Sum(CostOf, s), 1000000.0)
    ensures IsRounding(t.totalLatency, Sum(LatencyOf, s), 100.0)
    ensures IsRounding(t.averageLatency, Mean(Sum(LatencyOf, s), Count(HasLatency, s)), 100.0)
    ensures IsRounding(t.successRate, Mean(Count(Succeeded, s) as real, |s|), 10000.0)
    ensures t.costPerSuccess == None <==> Count(Succeeded, s) == 0
    ensures t.costPerSuccess != None ==>
              IsRounding(t.costPerSuccess.value, Mean(Sum(CostOf, s), Count(Succeeded, s)), 1000000.0)
  {
    RoundToRounds(Sum(CostOf, s), 1_000_000);
    RoundToRounds(Sum(LatencyOf, s), 100);
    RoundToRounds(Ratio(Sum(LatencyOf, s), Count(HasLatency, s)), 100);
    RoundToRounds(Ratio(Count(Succeeded, s) as real, |s|), 10_000);
    RoundToRounds(Ratio(Sum(CostOf, s), Count(Succeeded, s)), 1_000_000);
  }
}
