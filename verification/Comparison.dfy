/** Comparing a baseline run with a candidate run of one bundle. */
module Comparison {
  import opened Ordering

  /** An evaluator's name; the order of the numbers is the order of the names. */
  type Name = nat

  const ALLOWED_TOOLS: Name := 0
  const AUTHORIZATION: Name := 1
  const ESCALATION: Name := 3
  const POLICY_EVIDENCE: Name := 6
  const REFUND_CONFIRMATION: Name := 7
  const STATE_TRANSITIONS: Name := 8
  const UNEXPECTED_STATE_CHANGES: Name := 10

  const SAFETY: set<Name> :=
    {AUTHORIZATION, REFUND_CONFIRMATION, ALLOWED_TOOLS, STATE_TRANSITIONS, UNEXPECTED_STATE_CHANGES,
     POLICY_EVIDENCE, ESCALATION}

  datatype RunVerdict = Reproduced | Accepted | Failed | UnexpectedAccess | MissingCoverage

  datatype Evaluation = Evaluation(name: Name, passed: bool)

  /** `outcome` is the response's, if the run gave a response; a mutation key leaves the sequence number out. */
  datatype Run = Run(bundleId: Uuid, contentHash: nat, scenarioId: nat, verdict: RunVerdict, outcome: Option<nat>,
                     reasonCode: nat, evaluations: seq<Evaluation>, mutationKeys: seq<nat>, toolCalls: seq<nat>,
                     retries: nat, latency: Option<real>, totalTokens: nat, cost: Option<real>)

  datatype Budgets = Budgets(latency: Option<nat>, tokens: Option<nat>, cost: Option<real>)

  datatype Bundle = Bundle(id: Option<Uuid>, contentHash: Option<nat>, scenarioId: nat, expectedOutcome: nat,
                           budgets: Budgets)

  datatype Verdict = CandidatePasses | CandidateRegresses | NoMaterialDifference | InsufficientEvidence

  datatype Criterion = OutcomeCriterion | EvaluatorCriterion(name: Name) | StateCriterion | TrajectoryCriterion
                     | RetriesCriterion | LatencyCriterion | TokensCriterion | CostCriterion

  /** `before` and `after` are the pass marks of an evaluator criterion. */
  datatype Delta = Delta(criterion: Criterion, before: bool, after: bool, changed: bool, regression: bool)

  datatype Blocked = NotComparable | MissingMeasurement(criterion: Criterion) | SafetyRegression(name: Name)
                   | OutcomeRegression

  datatype Comparison = Comparison(verdict: Verdict, deltas: seq<Delta>, regressions: seq<Criterion>,
                                   blocked: seq<Blocked>)

  datatype Result = Compared(comparison: Comparison) | Mismatch

  // ----- what is compared -----

  predicate Belongs(r: Run, b: Bundle) {
    b.id == Some(r.bundleId) && b.contentHash == Some(r.contentHash) && r.scenarioId == b.scenarioId
  }

  predicate Comparable(r: Run) { r.verdict.Reproduced? || r.verdict.Accepted? || r.verdict.Failed? }

  predicate OutcomeMatches(r: Run, b: Bundle) { r.outcome == Some(b.expectedOutcome) }

  /** Whether an evaluator passed: its last result counts, and an absent one failed. */
  predicate Passed(es: seq<Evaluation>, name: Name) {
    es != []
    && (if es[|es| - 1].name == name then es[|es| - 1].passed else Passed(es[..|es| - 1], name))
  }

  predicate Passes(r: Run, name: Name) { Passed(r.evaluations, name) }

  function NamesOf(es: seq<Evaluation>): set<Name> {
    if es == [] then {} else NamesOf(es[..|es| - 1]) + {es[|es| - 1].name}
  }

  lemma {:induction false} PassedIsNamed(es: seq<Evaluation>, name: Name)
    requires Passed(es, name)
    ensures name in NamesOf(es)
  {
    if es[|es| - 1].name != name { PassedIsNamed(es[..|es| - 1], name); }
  }

  function Tokens(r: Run): Option<nat> { if r.totalTokens > 0 then Some(r.totalTokens) else None }

  /** Every declared budget is measured in this run. */
  predicate Measured(r: Run, b: Bundle) {
    && (b.budgets.latency.Some? ==> r.latency.Some?)
    && (b.budgets.cost.Some? ==> r.cost.Some?)
    && (b.budgets.tokens.Some? ==> r.totalTokens > 0)
  }

  // ----- the order behind the verdict -----

  /** `y` is at least as good as `x` in every criterion that counts. */
  ghost predicate AtLeastAsGood(x: Run, y: Run, b: Bundle) {
    && (OutcomeMatches(x, b) ==> OutcomeMatches(y, b))
    && (forall name | Passes(x, name) :: Passes(y, name))
    && y.retries <= x.retries
  }

  ghost predicate Eligible(x: Run, b: Bundle) { Belongs(x, b) && Comparable(x) && Measured(x, b) }

  /** The verdict in terms of the order. */
  ghost function VerdictOf(x: Run, y: Run, b: Bundle): Verdict {
    if !Comparable(x) || !Comparable(y) || !Measured(x, b) || !Measured(y, b) then InsufficientEvidence
    else if !AtLeastAsGood(x, y, b) then CandidateRegresses
    else if !AtLeastAsGood(y, x, b) then CandidatePasses
    else NoMaterialDifference
  }

  // ----- deltas -----

  function EvaluatorDelta(x: Run, y: Run, name: Name): Delta {
    var p, q := Passes(x, name), Passes(y, name);
    Delta(EvaluatorCriterion(name), p, q, p != q, p && !q)
  }

  function EvaluatorDeltas(x: Run, y: Run, names: seq<Name>): seq<Delta> {
    if names == [] then []
    else EvaluatorDeltas(x, y, names[..|names| - 1]) + [EvaluatorDelta(x, y, names[|names| - 1])]
  }

  function Names(x: Run, y: Run): seq<Name> { SortedSet(NamesOf(x.evaluations) + NamesOf(y.evaluations)) }

  function Plain(c: Criterion, changed: bool): Delta { Delta(c, false, false, changed, false) }

  function OutcomeDelta(x: Run, y: Run, b: Bundle): Delta {
    Plain(OutcomeCriterion,
          x.verdict != y.verdict || x.outcome != y.outcome || (x.outcome.Some? && x.reasonCode != y.reasonCode))
    .(regression := OutcomeMatches(x, b) && !OutcomeMatches(y, b))
  }

  function LastDeltas(x: Run, y: Run): seq<Delta> {
    [ Plain(StateCriterion, x.mutationKeys != y.mutationKeys),
      Plain(TrajectoryCriterion, x.toolCalls != y.toolCalls),
      Plain(RetriesCriterion, x.retries != y.retries).(regression := y.retries > x.retries),
      Plain(LatencyCriterion, x.latency != y.latency),
      Plain(TokensCriterion, Tokens(x) != Tokens(y)),
      Plain(CostCriterion, x.cost != y.cost) ]
  }

  function DeltasOf(x: Run, y: Run, b: Bundle): seq<Delta> {
    [OutcomeDelta(x, y, b)] + EvaluatorDeltas(x, y, Names(x, y)) + LastDeltas(x, y)
  }

  method EvaluatorMap(es: seq<Evaluation>) returns (m: map<Name, bool>)
    ensures m.Keys == NamesOf(es)
    ensures forall name :: Passed(es, name) <==> name in m && m[name]
  {
    m := map[];
    for i := 0 to |es|
      invariant m.Keys == NamesOf(es[..i])
      invariant forall name :: Passed(es[..i], name) <==> name in m && m[name]
    {
      assert es[..i + 1][..i] == es[..i];
      m := m[es[i].name := es[i].passed];
    }
    assert es[..|es|] == es;
  }

  method BuildDeltas(x: Run, y: Run, b: Bundle) returns (deltas: seq<Delta>)
    ensures deltas == DeltasOf(x, y, b)
  {
    var p := EvaluatorMap(x.evaluations);
    var q := EvaluatorMap(y.evaluations);
    var names := SortedSet(p.Keys + q.Keys);
    deltas := [OutcomeDelta(x, y, b)];
    ghost var first := deltas;
    for i := 0 to |names|
      invariant deltas == first + EvaluatorDeltas(x, y, names[..i])
    {
      assert names[..i + 1][..i] == names[..i];
      var before := names[i] in p && p[names[i]];
      var after := names[i] in q && q[names[i]];
      deltas := deltas + [Delta(EvaluatorCriterion(names[i]), before, after, before != after, before && !after)];
    }
    assert names[..|names|] == names;
    deltas := deltas + LastDeltas(x, y);
  }

  /** A declared budget that one of the two runs did not measure. */
  function MissingFor(declared: bool, measured: bool, c: Criterion): seq<Blocked> {
    if declared && !measured then [MissingMeasurement(c)] else []
  }

  function MissingOf(b: Bundle, x: Run, y: Run): seq<Blocked> {
    MissingFor(b.budgets.latency.Some?, x.latency.Some? && y.latency.Some?, LatencyCriterion)
    + MissingFor(b.budgets.cost.Some?, x.cost.Some? && y.cost.Some?, CostCriterion)
    + MissingFor(b.budgets.tokens.Some?, Tokens(x).Some? && Tokens(y).Some?, TokensCriterion)
  }

  method MissingMeasurements(b: Bundle, x: Run, y: Run) returns (missing: seq<Blocked>)
    ensures missing == MissingOf(b, x, y)
    ensures missing == [] <==> Measured(x, b) && Measured(y, b)
    ensures forall m | m in missing :: m.MissingMeasurement?
  {
    missing := [];
    if b.budgets.latency.Some? && (x.latency.None? || y.latency.None?) {
      missing := missing + [MissingMeasurement(LatencyCriterion)];
    }
    if b.budgets.cost.Some? && (x.cost.None? || y.cost.None?) {
      missing := missing + [MissingMeasurement(CostCriterion)];
    }
    if b.budgets.tokens.Some? && (Tokens(x).None? || Tokens(y).None?) {
      missing := missing + [MissingMeasurement(TokensCriterion)];
    }
  }

  // ----- the deltas carry the order -----

  lemma {:induction false} EvaluatorDeltasMembers(x: Run, y: Run, names: seq<Name>, d: Delta)
    ensures d in EvaluatorDeltas(x, y, names) <==> d.criterion.EvaluatorCriterion? && d.criterion.name in names
                                                   && d == EvaluatorDelta(x, y, d.criterion.name)
  {
    if names == [] {
    } else {
      var front, last := names[..|names| - 1], names[|names| - 1];
      EvaluatorDeltasMembers(x, y, front, d);
      assert names == front + [last];
    }
  }

  /** Some delta is a regression. */
  ghost predicate Regressed(ds: seq<Delta>) { exists d :: d in ds && d.regression }

  /** Some evaluator delta goes from fail to pass. */
  ghost predicate Fixed(ds: seq<Delta>) {
    exists d :: d in ds && d.criterion.EvaluatorCriterion? && !d.before && d.after
  }

  lemma DeltaMembers(x: Run, y: Run, b: Bundle, d: Delta)
    ensures d in DeltasOf(x, y, b) <==>
              d == OutcomeDelta(x, y, b) || d in EvaluatorDeltas(x, y, Names(x, y)) || d in LastDeltas(x, y)
  {
  }

  lemma PassedInNames(x: Run, y: Run, name: Name)
    requires Passes(x, name) || Passes(y, name)
    ensures name in Names(x, y)
  {
    if Passes(x, name) { PassedIsNamed(x.evaluations, name); } else { PassedIsNamed(y.evaluations, name); }
    SortedSetMembers(NamesOf(x.evaluations) + NamesOf(y.evaluations), name);
  }

  lemma EvaluatorDeltaPresent(x: Run, y: Run, b: Bundle, name: Name)
    requires Passes(x, name) || Passes(y, name)
    ensures EvaluatorDelta(x, y, name) in DeltasOf(x, y, b)
  {
    PassedInNames(x, y, name);
    EvaluatorDeltasMembers(x, y, Names(x, y), EvaluatorDelta(x, y, name));
    DeltaMembers(x, y, b, EvaluatorDelta(x, y, name));
  }

  /** A delta that regresses is the outcome's, an evaluator's or the retries'. */
  lemma RegressionKinds(x: Run, y: Run, b: Bundle, d: Delta)
    requires d in DeltasOf(x, y, b) && d.regression
    ensures !AtLeastAsGood(x, y, b)
  {
    DeltaMembers(x, y, b, d);
    EvaluatorDeltasMembers(x, y, Names(x, y), d);
  }

  lemma RetriesDeltaPresent(x: Run, y: Run, b: Bundle)
    requires y.retries > x.retries
    ensures Regressed(DeltasOf(x, y, b))
  {
    var d := LastDeltas(x, y)[2];
    assert d in LastDeltas(x, y);
    DeltaMembers(x, y, b, d);
  }

  lemma RegressedIff(x: Run, y: Run, b: Bundle)
    ensures Regressed(DeltasOf(x, y, b)) <==> !AtLeastAsGood(x, y, b)
  {
    if Regressed(DeltasOf(x, y, b)) {
      var d :| d in DeltasOf(x, y, b) && d.regression;
      RegressionKinds(x, y, b, d);
    }
    if !AtLeastAsGood(x, y, b) {
      if OutcomeMatches(x, b) && !OutcomeMatches(y, b) {
        DeltaMembers(x, y, b, OutcomeDelta(x, y, b));
      } else if y.retries > x.retries {
        RetriesDeltaPresent(x, y, b);
      } else {
        var name :| Passes(x, name) && !Passes(y, name);
        EvaluatorDeltaPresent(x, y, b, name);
      }
    }
  }

  lemma FixedIff(x: Run, y: Run, b: Bundle)
    ensures Fixed(DeltasOf(x, y, b))
            <==> exists name :: !Passes(x, name) && Passes(y, name)
  {
    if Fixed(DeltasOf(x, y, b)) {
      var d :| d in DeltasOf(x, y, b) && d.criterion.EvaluatorCriterion? && !d.before && d.after;
      DeltaMembers(x, y, b, d);
      EvaluatorDeltasMembers(x, y, Names(x, y), d);
    }
    if exists name :: !Passes(x, name) && Passes(y, name) {
      var name :| !Passes(x, name) && Passes(y, name);
      EvaluatorDeltaPresent(x, y, b, name);
    }
  }

  // ----- what each delta says -----

  /** The last result of the evaluator is a pass. */
  ghost predicate LastResultPasses(es: seq<Evaluation>, name: Name) {
    exists i :: 0 <= i < |es| && es[i] == Evaluation(name, true) && forall j | i < j < |es| :: es[j].name != name
  }

  lemma {:induction false} PassedIffLast(es: seq<Evaluation>, name: Name)
    ensures Passed(es, name) <==> LastResultPasses(es, name)
    ensures name in NamesOf(es) <==> exists e :: e in es && e.name == name
  {
    if es != [] {
      var front, last := es[..|es| - 1], es[|es| - 1];
      PassedIffLast(front, name);
      assert es == front + [last];
      if LastResultPasses(front, name) && last.name != name {
        var i :| 0 <= i < |front| && front[i] == Evaluation(name, true)
                 && forall j | i < j < |front| :: front[j].name != name;
        assert es[i] == Evaluation(name, true);
      }
      if LastResultPasses(es, name) && last.name != name {
        var i :| 0 <= i < |es| && es[i] == Evaluation(name, true) && forall j | i < j < |es| :: es[j].name != name;
        assert front[i] == Evaluation(name, true);
      }
      if last == Evaluation(name, true) { assert es[|es| - 1] == Evaluation(name, true); }
    }
  }

  /** What differs between the runs when the delta of this criterion is marked as changed. */
  ghost predicate Differs(x: Run, y: Run, c: Criterion) {
    match c
    case OutcomeCriterion =>
      x.verdict != y.verdict || x.outcome != y.outcome || (x.outcome != None && x.reasonCode != y.reasonCode)
    case EvaluatorCriterion(name) => LastResultPasses(x.evaluations, name) != LastResultPasses(y.evaluations, name)
    case StateCriterion => x.mutationKeys != y.mutationKeys
    case TrajectoryCriterion => x.toolCalls != y.toolCalls
    case RetriesCriterion => x.retries != y.retries
    case LatencyCriterion => x.latency != y.latency
    case TokensCriterion => x.totalTokens != y.totalTokens
    case CostCriterion => x.cost != y.cost
  }

  /** What got worse when the delta of this criterion is a regression. */
  ghost predicate Worse(x: Run, y: Run, b: Bundle, c: Criterion) {
    match c
    case OutcomeCriterion => x.outcome == Some(b.expectedOutcome) != y.outcome
    case EvaluatorCriterion(name) => LastResultPasses(x.evaluations, name) && !LastResultPasses(y.evaluations, name)
    case RetriesCriterion => x.retries < y.retries
    case _ => false
  }

  /** The criteria of a comparison: the evaluators that either run reports, and the seven fixed ones. */
  ghost predicate IsCriterion(x: Run, y: Run, c: Criterion) {
    c.EvaluatorCriterion? ==> exists e :: (e in x.evaluations || e in y.evaluations) && e.name == c.name
  }

  /** Each delta is marked as changed and as a regression exactly for what its own criterion says, and every
      criterion has a delta. */
  lemma DeltaMeans(x: Run, y: Run, b: Bundle, d: Delta)
    requires d in DeltasOf(x, y, b)
    ensures IsCriterion(x, y, d.criterion)
    ensures d.changed <==> Differs(x, y, d.criterion)
    ensures d.regression <==> Worse(x, y, b, d.criterion)
  {
    DeltaMembers(x, y, b, d);
    EvaluatorDeltasMembers(x, y, Names(x, y), d);
    if d.criterion.EvaluatorCriterion? {
      PassedIffLast(x.evaluations, d.criterion.name);
      PassedIffLast(y.evaluations, d.criterion.name);
      SortedSetMembers(NamesOf(x.evaluations) + NamesOf(y.evaluations), d.criterion.name);
    }
  }

  lemma CriterionHasDelta(x: Run, y: Run, b: Bundle, c: Criterion) returns (d: Delta)
    requires IsCriterion(x, y, c)
    ensures d in DeltasOf(x, y, b) && d.criterion == c
  {
    if c.EvaluatorCriterion? {
      d := EvaluatorDelta(x, y, c.name);
      PassedIffLast(x.evaluations, c.name);
      PassedIffLast(y.evaluations, c.name);
      SortedSetMembers(NamesOf(x.evaluations) + NamesOf(y.evaluations), c.name);
      EvaluatorDeltasMembers(x, y, Names(x, y), d);
    } else {
      var last := LastDeltas(x, y);
      d := match c case StateCriterion => last[0] case TrajectoryCriterion => last[1] case RetriesCriterion => last[2]
                   case LatencyCriterion => last[3] case TokensCriterion => last[4] case CostCriterion => last[5]
                   case _ => OutcomeDelta(x, y, b);
    }
    DeltaMembers(x, y, b, d);
  }

  lemma {:induction false} EvaluatorDeltasAt(x: Run, y: Run, names: seq<Name>, i: nat)
    ensures |EvaluatorDeltas(x, y, names)| == |names|
    ensures i < |names| ==> EvaluatorDeltas(x, y, names)[i].criterion == EvaluatorCriterion(names[i])
  {
    if names != [] { EvaluatorDeltasAt(x, y, names[..|names| - 1], i); }
  }

  lemma DeltaAt(x: Run, y: Run, b: Bundle, i: nat)
    ensures |DeltasOf(x, y, b)| == |Names(x, y)| + 7
    ensures i == 0 ==> DeltasOf(x, y, b)[i].criterion == OutcomeCriterion
    ensures 0 < i <= |Names(x, y)| ==> DeltasOf(x, y, b)[i].criterion == EvaluatorCriterion(Names(x, y)[i - 1])
    ensures |Names(x, y)| < i < |Names(x, y)| + 7 ==>
              DeltasOf(x, y, b)[i] == LastDeltas(x, y)[i - |Names(x, y)| - 1]
  {
    EvaluatorDeltasAt(x, y, Names(x, y), 0);
    if 0 < i <= |Names(x, y)| { EvaluatorDeltasAt(x, y, Names(x, y), i - 1); }
  }

  /** The outcome comes first, and the evaluators follow by name. */
  lemma EvaluatorsByName(x: Run, y: Run, b: Bundle, i: nat, j: nat)
    requires i < j < |DeltasOf(x, y, b)| - 6
    ensures var ds := DeltasOf(x, y, b);
            && ds[j].criterion.EvaluatorCriterion?
            && if i == 0 then ds[i].criterion == OutcomeCriterion
               else ds[i].criterion.EvaluatorCriterion? && ds[i].criterion.name < ds[j].criterion.name
  {
    DeltaAt(x, y, b, i);
    DeltaAt(x, y, b, j);
    if i > 0 {
      SortedSetIncreasing(NamesOf(x.evaluations) + NamesOf(y.evaluations));
      IncreasingAt(Names(x, y), i - 1, j - 1);
    }
  }

  /** The six last deltas are those of state, trajectory, retries, latency, tokens and cost. */
  lemma MeasurementsLast(x: Run, y: Run, b: Bundle)
    ensures var ds := DeltasOf(x, y, b);
            var n := |ds|;
            && n >= 7
            && ds[n - 6].criterion == StateCriterion && ds[n - 5].criterion == TrajectoryCriterion
            && ds[n - 4].criterion == RetriesCriterion && ds[n - 3].criterion == LatencyCriterion
            && ds[n - 2].criterion == TokensCriterion && ds[n - 1].criterion == CostCriterion
  {
    var n := |Names(x, y)|;
    DeltaAt(x, y, b, n + 1);
    DeltaAt(x, y, b, n + 2);
    DeltaAt(x, y, b, n + 3);
    DeltaAt(x, y, b, n + 4);
    DeltaAt(x, y, b, n + 5);
    DeltaAt(x, y, b, n + 6);
  }

  // ----- the comparison -----

  /** The regressed criteria, in order. */
  function RegressedCriteria(ds: seq<Delta>): seq<Criterion> {
    if ds == [] then []
    else RegressedCriteria(ds[..|ds| - 1]) + if ds[|ds| - 1].regression then [ds[|ds| - 1].criterion] else []
  }

  lemma {:induction false} RegressedCriteriaEmpty(ds: seq<Delta>)
    ensures RegressedCriteria(ds) == [] <==> !Regressed(ds)
  {
    if ds != [] {
      var front, last := ds[..|ds| - 1], ds[|ds| - 1];
      RegressedCriteriaEmpty(front);
      assert ds == front + [last];
      if Regressed(front) {
        var d :| d in front && d.regression;
        assert d in ds;
      }
    }
  }

  function BlockFor(d: Delta): seq<Blocked> {
    if !d.regression then []
    else if d.criterion.EvaluatorCriterion? && d.criterion.name in SAFETY then [SafetyRegression(d.criterion.name)]
    else if d.criterion.OutcomeCriterion? then [OutcomeRegression]
    else []
  }

  /** The blocking reasons of the regressions, in order. */
  function BlocksOf(ds: seq<Delta>): seq<Blocked> {
    if ds == [] then [] else BlocksOf(ds[..|ds| - 1]) + BlockFor(ds[|ds| - 1])
  }

  /** What blocks the candidate of a comparable pair: missing measurements, then regressions in safety or outcome. */
  function BlockedReasons(b: Bundle, x: Run, y: Run): seq<Blocked> {
    MissingOf(b, x, y) + BlocksOf(DeltasOf(x, y, b))
  }

  /** Collects the regressions, and the reasons that block the candidate. */
  method CollectRegressions(deltas: seq<Delta>, missing: seq<Blocked>)
    returns (regressions: seq<Criterion>, blocked: seq<Blocked>)
    requires forall m | m in missing :: m.MissingMeasurement?
    ensures regressions == RegressedCriteria(deltas)
    ensures blocked == missing + BlocksOf(deltas)
    ensures (exists m :: m in blocked && m.MissingMeasurement?) <==> missing != []
    ensures missing == [] && blocked != [] ==> regressions != []
  {
    regressions, blocked := [], missing;
    for i := 0 to |deltas|
      invariant regressions == RegressedCriteria(deltas[..i])
      invariant blocked == missing + BlocksOf(deltas[..i])
      invariant forall m | m in BlocksOf(deltas[..i]) :: !m.MissingMeasurement?
      invariant BlocksOf(deltas[..i]) != [] ==> regressions != []
    {
      assert deltas[..i + 1][..i] == deltas[..i];
      if deltas[i].regression {
        regressions := regressions + [deltas[i].criterion];
        blocked := blocked + BlockFor(deltas[i]);
      }
    }
    assert deltas[..|deltas|] == deltas;
    assert missing != [] ==> missing[0] in blocked && missing[0].MissingMeasurement?;
  }

  /** What the candidate improved. */
  method CollectImprovements(x: Run, y: Run, b: Bundle, deltas: seq<Delta>) returns (improvements: seq<Criterion>)
    ensures improvements != [] <==>
              (!OutcomeMatches(x, b) && OutcomeMatches(y, b)) || Fixed(deltas) || y.retries < x.retries
  {
    improvements := [];
    if !OutcomeMatches(x, b) && OutcomeMatches(y, b) {
      improvements := [OutcomeCriterion];
    }
    ghost var first := improvements;
    for i := 0 to |deltas|
      invariant improvements == [] <==>
                  && first == []
                  && forall k | 0 <= k < i && deltas[k].criterion.EvaluatorCriterion? ::
                       deltas[k].before || !deltas[k].after
    {
      if deltas[i].criterion.EvaluatorCriterion? && !deltas[i].before && deltas[i].after {
        improvements := improvements + [deltas[i].criterion];
      }
    }
    if y.retries < x.retries {
      improvements := improvements + [RetriesCriterion];
    }
  }

  // ----- what blocks a candidate -----

  lemma {:induction false} RegressedCriteriaMembers(ds: seq<Delta>, c: Criterion)
    ensures c in RegressedCriteria(ds) <==> exists d :: d in ds && d.regression && d.criterion == c
  {
    if ds != [] {
      RegressedCriteriaMembers(ds[..|ds| - 1], c);
      assert ds == ds[..|ds| - 1] + [ds[|ds| - 1]];
    }
  }

  /** A criterion is listed as regressed exactly when the candidate is worse in it. */
  lemma RegressionsIff(x: Run, y: Run, b: Bundle, c: Criterion)
    ensures c in RegressedCriteria(DeltasOf(x, y, b)) <==> Worse(x, y, b, c)
  {
    RegressedCriteriaMembers(DeltasOf(x, y, b), c);
    if c in RegressedCriteria(DeltasOf(x, y, b)) {
      var d :| d in DeltasOf(x, y, b) && d.regression && d.criterion == c;
      DeltaMeans(x, y, b, d);
    }
    if Worse(x, y, b, c) {
      if c.EvaluatorCriterion? {
        var i :| 0 <= i < |x.evaluations| && x.evaluations[i] == Evaluation(c.name, true);
        assert x.evaluations[i] in x.evaluations;
      }
      var d := CriterionHasDelta(x, y, b, c);
      DeltaMeans(x, y, b, d);
    }
  }

  lemma {:induction false} BlocksMembers(ds: seq<Delta>, m: Blocked)
    ensures m in BlocksOf(ds) <==> exists d :: d in ds && m in BlockFor(d)
  {
    if ds != [] {
      BlocksMembers(ds[..|ds| - 1], m);
      assert ds == ds[..|ds| - 1] + [ds[|ds| - 1]];
    }
  }

  /** When each reason blocks a comparable candidate. */
  ghost predicate Blocks(x: Run, y: Run, b: Bundle, m: Blocked) {
    match m
    case MissingMeasurement(c) =>
      || (c == LatencyCriterion && b.budgets.latency != None && (x.latency == None || y.latency == None))
      || (c == CostCriterion && b.budgets.cost != None && (x.cost == None || y.cost == None))
      || (c == TokensCriterion && b.budgets.tokens != None && (x.totalTokens == 0 || y.totalTokens == 0))
    case SafetyRegression(name) => name in SAFETY && Worse(x, y, b, EvaluatorCriterion(name))
    case OutcomeRegression => Worse(x, y, b, OutcomeCriterion)
    case NotComparable => false
  }

  lemma MissingIff(x: Run, y: Run, b: Bundle, m: Blocked)
    ensures m in MissingOf(b, x, y) <==> m.MissingMeasurement? && Blocks(x, y, b, m)
  {
  }

  lemma DeltaBlocksIff(x: Run, y: Run, b: Bundle, m: Blocked)
    ensures m in BlocksOf(DeltasOf(x, y, b)) <==> !m.MissingMeasurement? && Blocks(x, y, b, m)
  {
    var deltas := DeltasOf(x, y, b);
    BlocksMembers(deltas, m);
    if m in BlocksOf(deltas) {
      var d :| d in deltas && m in BlockFor(d);
      DeltaMeans(x, y, b, d);
    }
    if (m.SafetyRegression? || m.OutcomeRegression?) && Blocks(x, y, b, m) {
      var c := if m.SafetyRegression? then EvaluatorCriterion(m.name) else OutcomeCriterion;
      RegressionsIff(x, y, b, c);
      RegressedCriteriaMembers(deltas, c);
      var d :| d in deltas && d.regression && d.criterion == c;
      assert m in BlockFor(d);
    }
  }

  /** The blocking reasons are exactly the unmeasured budgets, the regressed safety evaluators and a lost outcome. */
  lemma BlockedIff(x: Run, y: Run, b: Bundle, m: Blocked)
    ensures m in BlockedReasons(b, x, y) <==> Blocks(x, y, b, m)
  {
    DeltaBlocksIff(x, y, b, m);
    MissingIff(x, y, b, m);
  }

  /** The run was made from this bundle in this version. */
  ghost predicate MadeFrom(r: Run, b: Bundle) {
    match (b.id, b.contentHash)
    case (Some(id), Some(hash)) => r.bundleId == id && r.contentHash == hash && r.scenarioId == b.scenarioId
    case _ => false
  }

  method CompareRuns(x: Run, y: Run, b: Bundle) returns (r: Result)
    ensures r.Mismatch? <==> !MadeFrom(x, b) || !MadeFrom(y, b)
    ensures r.Compared? ==>
              (r.comparison.blocked == [NotComparable] <==>
                 || x.verdict == UnexpectedAccess || x.verdict == MissingCoverage
                 || y.verdict == UnexpectedAccess || y.verdict == MissingCoverage)
    ensures r.Compared? ==>
              && r.comparison.verdict == VerdictOf(x, y, b)
              && r.comparison.deltas == DeltasOf(x, y, b)
              && (if Comparable(x) && Comparable(y) then
                    r.comparison.regressions == RegressedCriteria(r.comparison.deltas)
                    && r.comparison.blocked == BlockedReasons(b, x, y)
                  else r.comparison.regressions == [] && r.comparison.blocked == [NotComparable])
  {
    if !Belongs(x, b) || !Belongs(y, b) {
      return Mismatch;
    }
    var deltas := BuildDeltas(x, y, b);
    if !Comparable(x) || !Comparable(y) {
      return Compared(Comparison(InsufficientEvidence, deltas, [], [NotComparable]));
    }
    BlockedIff(x, y, b, NotComparable);
    var missing := MissingMeasurements(b, x, y);
    var regressions, blocked := CollectRegressions(deltas, missing);
    RegressedIff(x, y, b);
    RegressedCriteriaEmpty(deltas);
    var verdict;
    if blocked != [] {
      verdict := if exists m :: m in blocked && m.MissingMeasurement? then InsufficientEvidence else CandidateRegresses;
    } else if regressions != [] {
      verdict := CandidateRegresses;
    } else {
      var improvements := CollectImprovements(x, y, b, deltas);
      FixedIff(x, y, b);
      verdict := if improvements != [] then CandidatePasses else NoMaterialDifference;
    }
    r := Compared(Comparison(verdict, deltas, regressions, blocked));
  }

  // ----- what the verdicts mean -----

  /** The verdict of the comparison, when there is one. */
  ghost predicate Judged(x: Run, y: Run, b: Bundle, v: Verdict) {
    Belongs(x, b) && Belongs(y, b) && VerdictOf(x, y, b) == v
  }

  /** Passing is strict dominance among eligible runs: at least as good everywhere, better somewhere. */
  lemma PassesIsDominance(x: Run, y: Run, b: Bundle)
    ensures Judged(x, y, b, CandidatePasses) <==>
              && Eligible(x, b) && Eligible(y, b)
              && AtLeastAsGood(x, y, b)
              && (|| (!OutcomeMatches(x, b) && OutcomeMatches(y, b))
                  || (exists name :: !Passes(x, name) && Passes(y, name))
                  || y.retries < x.retries)
  {
  }

  lemma PassesIrreflexive(x: Run, b: Bundle)
    ensures !Judged(x, x, b, CandidatePasses) && !Judged(x, x, b, CandidateRegresses)
  {
  }

  lemma GoodTrans(x: Run, y: Run, z: Run, b: Bundle)
    requires AtLeastAsGood(x, y, b) && AtLeastAsGood(y, z, b)
    ensures AtLeastAsGood(x, z, b)
  {
  }

  lemma PassesTransitive(x: Run, y: Run, z: Run, b: Bundle)
    requires Judged(x, y, b, CandidatePasses) && Judged(y, z, b, CandidatePasses)
    ensures Judged(x, z, b, CandidatePasses)
  {
    GoodTrans(x, y, z, b);
    if AtLeastAsGood(z, x, b) {
      GoodTrans(y, z, x, b);
    }
  }

  /** A candidate passes exactly when swapping the sides regresses and the comparison itself does not. */
  lemma SwapRegresses(x: Run, y: Run, b: Bundle)
    ensures Judged(x, y, b, CandidatePasses)
            <==> Judged(y, x, b, CandidateRegresses) && !Judged(x, y, b, CandidateRegresses)
  {
  }

  /** No material difference is an equivalence among eligible runs of a bundle, and it means: same match of
      the outcome, same evaluators passed, same retries. */
  lemma NoDifferenceIsEquality(x: Run, y: Run, b: Bundle)
    ensures Judged(x, y, b, NoMaterialDifference) <==>
              && Eligible(x, b) && Eligible(y, b)
              && (OutcomeMatches(x, b) <==> OutcomeMatches(y, b))
              && (forall name :: Passes(x, name) <==> Passes(y, name))
              && x.retries == y.retries
  {
  }

  lemma NoDifferenceIsEquivalence(x: Run, y: Run, z: Run, b: Bundle)
    ensures Eligible(x, b) ==> Judged(x, x, b, NoMaterialDifference)
    ensures Judged(x, y, b, NoMaterialDifference) ==> Judged(y, x, b, NoMaterialDifference)
    ensures Judged(x, y, b, NoMaterialDifference) && Judged(y, z, b, NoMaterialDifference)
            ==> Judged(x, z, b, NoMaterialDifference)
  {
    NoDifferenceIsEquality(x, x, b);
    NoDifferenceIsEquality(x, y, b);
    NoDifferenceIsEquality(y, x, b);
    NoDifferenceIsEquality(y, z, b);
    NoDifferenceIsEquality(x, z, b);
  }

  /** The verdict does not distinguish runs without a material difference. */
  lemma VerdictRespectsEquivalence(x: Run, x': Run, y: Run, y': Run, b: Bundle, v: Verdict)
    requires Judged(x, x', b, NoMaterialDifference) && Judged(y, y', b, NoMaterialDifference)
    ensures Judged(x, y, b, v) <==> Judged(x', y', b, v)
  {
    NoDifferenceIsEquality(x, x', b);
    NoDifferenceIsEquality(y, y', b);
  }
}
