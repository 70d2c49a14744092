/** The two evaluators that compare a run's mutations with the approved behaviour. */
module Evaluators {
  import opened Ordering
  import opened Simulation

  datatype Transition = Transition(resource: Resource, resourceId: Option<Uuid>, anyResourceId: bool,
                                   fromStatus: Option<string>, toStatus: string, reasonCode: string)

  datatype Behavior = Behavior(required: seq<Transition>, permitted: seq<Transition>)

  /** What the schema accepts: one concrete id, or the wildcard for a newly created ticket. */
  predicate Valid(t: Transition) {
    && (t.resource.OrderResource? || t.resource.TicketResource?)
    && (t.anyResourceId <==> t.resourceId.None?)
    && (t.anyResourceId ==>
          && t.resource.TicketResource? && t.reasonCode == TICKET_CREATED
          && t.fromStatus.None? && t.toStatus == "created")
  }

  ghost predicate AllValid(ts: seq<Transition>) { forall t | t in ts :: Valid(t) }

  function AsValue(status: Option<string>): Value {
    match status
    case None => Nothing
    case Some(text) => Text(text)
  }

  // ----- required transitions -----

  /** The comparison of the required check: an absent id never equals a recorded one. */
  predicate Fulfils(m: Mutation, t: Transition) {
    && m.resource == t.resource
    && t.resourceId == Some(m.resourceId)
    && m.field == StatusField
    && m.before == AsValue(t.fromStatus)
    && m.after == Text(t.toStatus)
    && m.reasonCode == t.reasonCode
  }

  predicate Occurred(ms: seq<Mutation>, t: Transition) {
    exists i :: 0 <= i < |ms| && Fulfils(ms[i], t)
  }

  function Lost(ms: seq<Mutation>, t: Transition): seq<Transition> { if Occurred(ms, t) then [] else [t] }

  /** The required transitions that no mutation fulfils, in order. */
  function Missing(ms: seq<Mutation>, ts: seq<Transition>): seq<Transition> {
    if ts == [] then [] else Lost(ms, ts[0]) + Missing(ms, ts[1..])
  }

  lemma {:induction false} MissingSnoc(ms: seq<Mutation>, ts: seq<Transition>, t: Transition)
    ensures Missing(ms, ts + [t]) == Missing(ms, ts) + Lost(ms, t)
  {
    if ts == [] {
      assert [t][1..] == [];
    } else {
      MissingSnoc(ms, ts[1..], t);
      assert (ts + [t])[1..] == ts[1..] + [t];
    }
  }

  /** The required check passes exactly when every required transition occurred. */
  method CheckStateTransitions(b: Behavior, ms: seq<Mutation>) returns (passed: bool, missing: seq<Transition>)
    ensures missing == Missing(ms, b.required)
    ensures passed <==> forall t | t in b.required :: Occurred(ms, t)
  {
    missing := [];
    for i := 0 to |b.required|
      invariant missing == Missing(ms, b.required[..i])
      invariant missing == [] <==> forall k | 0 <= k < i :: Occurred(ms, b.required[k])
    {
      var t := b.required[i];
      var matched := exists k :: 0 <= k < |ms| && Fulfils(ms[k], t);
      assert b.required[..i + 1] == b.required[..i] + [t];
      MissingSnoc(ms, b.required[..i], t);
      if !matched {
        missing := missing + [t];
      }
    }
    assert b.required[..|b.required|] == b.required;
    passed := missing == [];
  }

  // ----- unexpected changes -----

  function ExpectedField(t: Transition): ChangedField {
    if t.resource.TicketResource? && t.reasonCode == TICKET_CREATED then CreatedField else StatusField
  }

  predicate MatchesPermitted(m: Mutation, t: Transition) {
    && m.resource == t.resource
    && (t.anyResourceId || t.resourceId == Some(m.resourceId))
    && m.field == ExpectedField(t)
    && m.reasonCode == t.reasonCode
    && (t.fromStatus.Some? ==> m.before == Text(t.fromStatus.value))
    && (m.after.Text? ==> m.after.text == t.toStatus)
  }

  predicate IsPermitted(m: Mutation, ts: seq<Transition>) {
    exists i :: 0 <= i < |ts| && MatchesPermitted(m, ts[i])
  }

  function Surplus(m: Mutation, ts: seq<Transition>): seq<Mutation> { if IsPermitted(m, ts) then [] else [m] }

  /** The mutations that no permitted transition covers, in order. */
  function Unexpected(ms: seq<Mutation>, ts: seq<Transition>): seq<Mutation> {
    if ms == [] then [] else Surplus(ms[0], ts) + Unexpected(ms[1..], ts)
  }

  lemma {:induction false} UnexpectedMembers(ms: seq<Mutation>, ts: seq<Transition>, m: Mutation)
    ensures m in Unexpected(ms, ts) <==> m in ms && !IsPermitted(m, ts)
  {
    if ms == [] {
    } else {
      UnexpectedMembers(ms[1..], ts, m);
      assert m in ms <==> m == ms[0] || m in ms[1..];
    }
  }

  /** What makes a mutation fall outside one permitted transition. */
  ghost predicate Outside(m: Mutation, t: Transition) {
    || m.resource != t.resource || m.reasonCode != t.reasonCode
    || (!t.anyResourceId && t.resourceId != Some(m.resourceId))
    || (t.resource == TicketResource && t.reasonCode == TICKET_CREATED && m.field != CreatedField)
    || ((t.resource != TicketResource || t.reasonCode != TICKET_CREATED) && m.field != StatusField)
    || (exists from :: t.fromStatus == Some(from) && m.before != Text(from))
    || (exists to :: m.after == Text(to) && to != t.toStatus)
  }

  /** A mutation is reported exactly when it falls outside every permitted transition. */
  lemma UnexpectedIffOutside(ms: seq<Mutation>, ts: seq<Transition>, m: Mutation)
    ensures m in Unexpected(ms, ts) <==> m in ms && forall t | t in ts :: Outside(m, t)
  {
    UnexpectedMembers(ms, ts, m);
    if m in ms && IsPermitted(m, ts) {
      var i :| 0 <= i < |ts| && MatchesPermitted(m, ts[i]);
      assert ts[i] in ts && !Outside(m, ts[i]);
    }
    if m in ms && !IsPermitted(m, ts) {
      forall t | t in ts ensures Outside(m, t) {
        var i :| 0 <= i < |ts| && ts[i] == t;
        assert !MatchesPermitted(m, ts[i]);
      }
    }
  }

  /** A change of a resource that no permitted transition names is always reported, unless a wildcard is permitted. */
  lemma UnnamedIsReported(ms: seq<Mutation>, ts: seq<Transition>, m: Mutation)
    requires m in ms && forall t | t in ts :: !t.anyResourceId && t.resourceId != Some(m.resourceId)
    ensures m in Unexpected(ms, ts)
  {
    UnexpectedIffOutside(ms, ts, m);
  }

  // ----- privacy-safe behaviour -----

  function SafeTransition(synth: Renaming, t: Transition): Transition {
    t.(resourceId := RenameOption(synth, t.resourceId))
  }

  function SafeTransitions(synth: Renaming, ts: seq<Transition>): seq<Transition> {
    if ts == [] then [] else [SafeTransition(synth, ts[0])] + SafeTransitions(synth, ts[1..])
  }

  function SafeBehavior(synth: Renaming, b: Behavior): Behavior {
    Behavior(SafeTransitions(synth, b.required), SafeTransitions(synth, b.permitted))
  }

  ghost predicate PassesBoth(ms: seq<Mutation>, b: Behavior) {
    Missing(ms, b.required) == [] && Unexpected(ms, b.permitted) == []
  }

  /** The ids of concrete transitions and of mutations. */
  ghost function TransitionIds(ts: seq<Transition>): set<Uuid> {
    set t | t in ts && t.resourceId.Some? :: t.resourceId.value
  }

  ghost function MutationIds(ms: seq<Mutation>): set<Uuid> { set m | m in ms :: m.resourceId }

  /** `f` renames the run as the compiler renames the expectation, and merges no two ids that meet. */
  ghost predicate Consistent(f: Renaming, synth: Renaming, ms: seq<Mutation>, ts: seq<Transition>) {
    && (forall x | x in TransitionIds(ts) :: f(x) == synth(x))
    && InjectiveOn(f, TransitionIds(ts) + MutationIds(ms))
  }

  lemma ConsistentPair(f: Renaming, synth: Renaming, ms: seq<Mutation>, ts: seq<Transition>, m: Mutation, t: Transition)
    requires Consistent(f, synth, ms, ts) && m in ms && t in ts
    ensures SafeTransition(synth, t).resourceId == Some(RenameMutation(f, m).resourceId)
            <==> t.resourceId == Some(m.resourceId)
  {
    assert m.resourceId in MutationIds(ms);
    if t.resourceId.Some? {
      assert t.resourceId.value in TransitionIds(ts);
    }
  }

  lemma FulfilsRenamed(f: Renaming, synth: Renaming, ms: seq<Mutation>, ts: seq<Transition>, m: Mutation, t: Transition)
    requires Consistent(f, synth, ms, ts) && m in ms && t in ts
    ensures Fulfils(RenameMutation(f, m), SafeTransition(synth, t)) <==> Fulfils(m, t)
    ensures MatchesPermitted(RenameMutation(f, m), SafeTransition(synth, t)) <==> MatchesPermitted(m, t)
  {
    ConsistentPair(f, synth, ms, ts, m, t);
  }

  lemma {:induction false} RenameMutationsAt(f: Renaming, ms: seq<Mutation>, i: nat)
    ensures |RenameMutations(f, ms)| == |ms|
    ensures i < |ms| ==> RenameMutations(f, ms)[i] == RenameMutation(f, ms[i])
  {
    if ms != [] { RenameMutationsAt(f, ms[1..], if i == 0 then 0 else i - 1); }
  }

  lemma {:induction false} SafeTransitionsAt(synth: Renaming, ts: seq<Transition>, i: nat)
    ensures |SafeTransitions(synth, ts)| == |ts|
    ensures i < |ts| ==> SafeTransitions(synth, ts)[i] == SafeTransition(synth, ts[i])
  {
    if ts != [] { SafeTransitionsAt(synth, ts[1..], if i == 0 then 0 else i - 1); }
  }

  lemma OccurredRenamed(f: Renaming, synth: Renaming, ms: seq<Mutation>, ts: seq<Transition>, t: Transition)
    requires Consistent(f, synth, ms, ts) && t in ts
    ensures Occurred(RenameMutations(f, ms), SafeTransition(synth, t)) <==> Occurred(ms, t)
  {
    forall i: nat | i < |ms|
      ensures |RenameMutations(f, ms)| == |ms|
      ensures Fulfils(RenameMutations(f, ms)[i], SafeTransition(synth, t)) <==> Fulfils(ms[i], t)
    {
      RenameMutationsAt(f, ms, i);
      FulfilsRenamed(f, synth, ms, ts, ms[i], t);
    }
    RenameMutationsAt(f, ms, 0);
  }

  lemma PermittedRenamed(f: Renaming, synth: Renaming, ms: seq<Mutation>, ts: seq<Transition>, m: Mutation)
    requires Consistent(f, synth, ms, ts) && m in ms
    ensures IsPermitted(RenameMutation(f, m), SafeTransitions(synth, ts)) <==> IsPermitted(m, ts)
  {
    forall i: nat | i < |ts|
      ensures |SafeTransitions(synth, ts)| == |ts|
      ensures MatchesPermitted(RenameMutation(f, m), SafeTransitions(synth, ts)[i]) <==> MatchesPermitted(m, ts[i])
    {
      SafeTransitionsAt(synth, ts, i);
      FulfilsRenamed(f, synth, ms, ts, m, ts[i]);
    }
    SafeTransitionsAt(synth, ts, 0);
  }

  lemma SafeOnto(synth: Renaming, a: seq<Transition>, b: seq<Transition>)
    requires |a| <= 1
    ensures SafeTransitions(synth, a + b) == SafeTransitions(synth, a) + SafeTransitions(synth, b)
  {
    if a == [] {
      assert a + b == b;
    } else {
      assert (a + b)[0] == a[0] && (a + b)[1..] == b && a[1..] == [];
    }
  }

  lemma RenameOnto(f: Renaming, a: seq<Mutation>, b: seq<Mutation>)
    requires |a| <= 1
    ensures RenameMutations(f, a + b) == RenameMutations(f, a) + RenameMutations(f, b)
  {
    if a == [] {
      assert a + b == b;
    } else {
      assert (a + b)[0] == a[0] && (a + b)[1..] == b && a[1..] == [];
    }
  }

  lemma LostRenamed(f: Renaming, synth: Renaming, ms: seq<Mutation>, all: seq<Transition>, t: Transition)
    requires Consistent(f, synth, ms, all) && t in all
    ensures Lost(RenameMutations(f, ms), SafeTransition(synth, t)) == SafeTransitions(synth, Lost(ms, t))
  {
    OccurredRenamed(f, synth, ms, all, t);
    var none: seq<Transition> := [];
    assert [t][1..] == none;
  }

  lemma SurplusRenamed(f: Renaming, synth: Renaming, all: seq<Mutation>, ts: seq<Transition>, m: Mutation)
    requires Consistent(f, synth, all, ts) && m in all
    ensures Surplus(RenameMutation(f, m), SafeTransitions(synth, ts)) == RenameMutations(f, Surplus(m, ts))
  {
    PermittedRenamed(f, synth, all, ts, m);
    var none: seq<Mutation> := [];
    assert [m][1..] == none;
  }

  /** The same transitions are missing before and after renaming. */
  lemma {:induction false} MissingRenamed(f: Renaming, synth: Renaming, ms: seq<Mutation>, ts: seq<Transition>,
                                          all: seq<Transition>)
    requires Consistent(f, synth, ms, all) && forall t | t in ts :: t in all
    ensures Missing(RenameMutations(f, ms), SafeTransitions(synth, ts)) == SafeTransitions(synth, Missing(ms, ts))
    decreases |ts|
  {
    if ts != [] {
      MissingRenamed(f, synth, ms, ts[1..], all);
      LostRenamed(f, synth, ms, all, ts[0]);
      SafeOnto(synth, Lost(ms, ts[0]), Missing(ms, ts[1..]));
      assert SafeTransitions(synth, ts)[1..] == SafeTransitions(synth, ts[1..]);
    }
  }

  /** The same mutations are unexpected before and after renaming. */
  lemma {:induction false} UnexpectedRenamed(f: Renaming, synth: Renaming, ms: seq<Mutation>, all: seq<Mutation>,
                                             ts: seq<Transition>)
    requires Consistent(f, synth, all, ts) && forall m | m in ms :: m in all
    ensures Unexpected(RenameMutations(f, ms), SafeTransitions(synth, ts)) == RenameMutations(f, Unexpected(ms, ts))
    decreases |ms|
  {
    if ms != [] {
      UnexpectedRenamed(f, synth, ms[1..], all, ts);
      SurplusRenamed(f, synth, all, ts, ms[0]);
      RenameOnto(f, Surplus(ms[0], ts), Unexpected(ms[1..], ts));
      assert RenameMutations(f, ms)[1..] == RenameMutations(f, ms[1..]);
    }
  }

  lemma ConsistentParts(f: Renaming, synth: Renaming, ms: seq<Mutation>, a: seq<Transition>, b: seq<Transition>)
    requires Consistent(f, synth, ms, a + b)
    ensures Consistent(f, synth, ms, a) && Consistent(f, synth, ms, b)
  {
    forall x | x in TransitionIds(a) ensures x in TransitionIds(a + b) {
      var t :| t in a && t.resourceId == Some(x);
      assert t in a + b;
    }
    forall x | x in TransitionIds(b) ensures x in TransitionIds(a + b) {
      var t :| t in b && t.resourceId == Some(x);
      assert t in a + b;
    }
  }

  /** Compiling the expectation keeps both verdicts, whatever ids the replayed run uses for the
      resources that the expectation does not name. */
  lemma VerdictsKept(f: Renaming, synth: Renaming, ms: seq<Mutation>, b: Behavior)
    requires Consistent(f, synth, ms, b.required + b.permitted)
    ensures PassesBoth(RenameMutations(f, ms), SafeBehavior(synth, b)) <==> PassesBoth(ms, b)
  {
    ConsistentParts(f, synth, ms, b.required, b.permitted);
    MissingRenamed(f, synth, ms, b.required, b.required);
    UnexpectedRenamed(f, synth, ms, ms, b.permitted);
  }

  /** The verdicts of the two checks on a run are those on the renamed run. */
  ghost predicate SameVerdicts(f: Renaming, ms: seq<Mutation>, b: Behavior) {
    var ms', b' := RenameMutations(f, ms), SafeBehavior(f, b);
    && (Missing(ms', b'.required) == [] <==> Missing(ms, b.required) == [])
    && (Unexpected(ms', b'.permitted) == [] <==> Unexpected(ms, b.permitted) == [])
  }

  /** A renaming keeps every verdict of both checks. */
  ghost predicate KeepsVerdicts(f: Renaming) {
    forall ms, b: Behavior | AllValid(b.required) && AllValid(b.permitted) :: SameVerdicts(f, ms, b)
  }

  lemma SafeTransitionsEmpty(synth: Renaming, ts: seq<Transition>)
    ensures SafeTransitions(synth, ts) == [] <==> ts == []
  {
  }

  lemma RenameMutationsEmpty(f: Renaming, ms: seq<Mutation>)
    ensures RenameMutations(f, ms) == [] <==> ms == []
  {
  }

  lemma InjectiveKeeps(f: Renaming, ms: seq<Mutation>, b: Behavior)
    requires Injective(f)
    ensures SameVerdicts(f, ms, b)
  {
    MissingRenamed(f, f, ms, b.required, b.required);
    SafeTransitionsEmpty(f, Missing(ms, b.required));
    UnexpectedRenamed(f, f, ms, ms, b.permitted);
    RenameMutationsEmpty(f, Unexpected(ms, b.permitted));
  }

  /** Only a renaming that merges no ids keeps every verdict. */
  lemma KeepsVerdictsIffInjective(f: Renaming)
    ensures KeepsVerdicts(f) <==> Injective(f)
  {
    if Injective(f) {
      forall ms, b: Behavior | AllValid(b.required) && AllValid(b.permitted) ensures SameVerdicts(f, ms, b) {
        InjectiveKeeps(f, ms, b);
      }
    }
    if KeepsVerdicts(f) {
      forall x: Uuid, y: Uuid | f(x) == f(y) ensures x == y {
        MergedIdsFool(f, x, y);
      }
    }
  }

  lemma MergedIdsFool(f: Renaming, x: Uuid, y: Uuid)
    requires f(x) == f(y) && KeepsVerdicts(f)
    ensures x == y
  {
    var t := Transition(OrderResource, Some(x), false, None, "refunded", REFUND_EXECUTED);
    var m := Mutation(1, OrderResource, y, StatusField, Nothing, Text("refunded"), REFUND_EXECUTED);
    SingleMissing(m, t);
    SingleMissing(RenameMutation(f, m), SafeTransition(f, t));
    var noMutations: seq<Mutation>, noTransitions: seq<Transition> := [], [];
    assert [m][1..] == noMutations && [t][1..] == noTransitions;
    assert RenameMutations(f, [m]) == [RenameMutation(f, m)];
    assert SafeTransitions(f, [t]) == [SafeTransition(f, t)];
    assert AllValid([t]);
    assert SameVerdicts(f, [m], Behavior([t], []));
  }

  lemma SingleMissing(m: Mutation, t: Transition)
    ensures Missing([m], [t]) == [] <==> Fulfils(m, t)
  {
    var none: seq<Transition> := [];
    assert [t][1..] == none;
    assert Occurred([m], t) <==> Fulfils([m][0], t);
  }

  // ----- the order of the reports -----

  /** Missing transitions are reported in the order in which they are required. */
  lemma {:induction false} MissingInOrder(ms: seq<Mutation>, ts: seq<Transition>)
    ensures Subsequence(Missing(ms, ts), ts)
  {
    if ts != [] {
      MissingInOrder(ms, ts[1..]);
      SubsequenceStep(Missing(ms, ts[1..]), ts[1..], ts[0]);
      assert ts == [ts[0]] + ts[1..] && [] + Missing(ms, ts[1..]) == Missing(ms, ts[1..]);
    }
  }

  /** Unexpected changes are reported in the order in which they happened. */
  lemma {:induction false} UnexpectedInOrder(ms: seq<Mutation>, ts: seq<Transition>)
    ensures Subsequence(Unexpected(ms, ts), ms)
  {
    if ms != [] {
      UnexpectedInOrder(ms[1..], ts);
      SubsequenceStep(Unexpected(ms[1..], ts), ms[1..], ms[0]);
      assert ms == [ms[0]] + ms[1..] && [] + Unexpected(ms[1..], ts) == Unexpected(ms[1..], ts);
    }
  }

  // ----- the wildcard -----

  ghost predicate Fulfillable(ts: seq<Transition>) { exists ms :: Missing(ms, ts) == [] }

  /** A required transition with the wildcard cannot be fulfilled; without one, some run fulfils all. */
  lemma FulfillableIffConcrete(ts: seq<Transition>)
    requires AllValid(ts)
    ensures Fulfillable(ts) <==> forall t | t in ts :: !t.anyResourceId
  {
    if Fulfillable(ts) {
      var ms :| Missing(ms, ts) == [];
      forall t | t in ts ensures !t.anyResourceId {
        MissingMembers(ms, ts, t);
      }
    }
    if forall t | t in ts :: !t.anyResourceId {
      var ms := Fulfilment(ts);
      FulfilmentWorks(ts);
      AllOccurred(ms, ts);
    }
  }

  lemma {:induction false} MissingMembers(ms: seq<Mutation>, ts: seq<Transition>, t: Transition)
    ensures t in Missing(ms, ts) <==> t in ts && !Occurred(ms, t)
  {
    if ts == [] {
    } else {
      MissingMembers(ms, ts[1..], t);
      assert t in ts <==> t == ts[0] || t in ts[1..];
    }
  }

  lemma AllOccurred(ms: seq<Mutation>, ts: seq<Transition>)
    requires forall t | t in ts :: Occurred(ms, t)
    ensures Missing(ms, ts) == []
  {
    var missing := Missing(ms, ts);
    if missing != [] {
      MissingMembers(ms, ts, missing[0]);
      assert false;
    }
  }

  /** One mutation per concrete transition. */
  ghost function Fulfilment(ts: seq<Transition>): seq<Mutation> {
    if ts == [] then []
    else
      var t := ts[0];
      var id := if t.resourceId.Some? then t.resourceId.value else 0;
      [Mutation(0, t.resource, id, StatusField, AsValue(t.fromStatus), Text(t.toStatus), t.reasonCode)]
      + Fulfilment(ts[1..])
  }

  lemma {:induction false} FulfilmentWorks(ts: seq<Transition>)
    requires AllValid(ts) && forall t | t in ts :: !t.anyResourceId
    ensures forall t | t in ts :: Occurred(Fulfilment(ts), t)
  {
    if ts == [] {
    } else {
      FulfilmentWorks(ts[1..]);
      var ms, rest := Fulfilment(ts), Fulfilment(ts[1..]);
      assert Valid(ts[0]) && ts[0].resourceId.Some?;
      assert Fulfils(ms[0], ts[0]);
      forall t | t in ts ensures Occurred(ms, t) {
        if t != ts[0] {
          assert t in ts[1..];
          var i :| 0 <= i < |rest| && Fulfils(rest[i], t);
          assert ms[i + 1] == rest[i];
        }
      }
    }
  }

  /** What fulfils a requirement is permitted by the same transition, unless it creates a ticket:
      the two checks then look for different fields. */
  lemma FulfilledIsPermitted(m: Mutation, t: Transition)
    requires Fulfils(m, t)
    ensures MatchesPermitted(m, t) <==> !(t.resource.TicketResource? && t.reasonCode == TICKET_CREATED)
  {
  }
}
