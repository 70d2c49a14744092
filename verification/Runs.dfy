/** Finite runs of a system in which one of many clients moves at a time. */
module Runs {

  type ClientId = nat

  /** The moves of a client from one state to another. */
  type Moves<!S> = (S, ClientId, S) -> bool

  ghost predicate Step<S(!new)>(moves: Moves<S>, s: S, t: S) { exists c: ClientId :: moves(s, c, t) }

  /** Consecutive states are related by a move of some client. */
  ghost predicate IsRun<S(!new)>(moves: Moves<S>, run: seq<S>) {
    run != [] && forall i | 0 <= i < |run| - 1 :: Step(moves, run[i], run[i + 1])
  }

  /** What every move keeps holds from then on. */
  lemma {:induction false} KeptByRun<S(!new)>(moves: Moves<S>, keeps: S -> bool, run: seq<S>, i: nat, j: nat)
    requires IsRun(moves, run) && i <= j < |run| && keeps(run[i])
    requires forall s, c: ClientId, t | keeps(s) && moves(s, c, t) :: keeps(t)
    ensures keeps(run[j])
    decreases j - i
  {
    if i == j {
    } else {
      KeptByRun(moves, keeps, run, i, j - 1);
      assert Step(moves, run[j - 1], run[j - 1 + 1]);
    }
  }

  ghost predicate RunsTo<S(!new)>(moves: Moves<S>, s: S, t: S) {
    exists run :: IsRun(moves, run) && run[0] == s && run[|run| - 1] == t
  }

  lemma RunsToSelf<S(!new)>(moves: Moves<S>, s: S)
    ensures RunsTo(moves, s, s)
  {
    assert IsRun(moves, [s]) && [s][0] == s && [s][|[s]| - 1] == s;
  }

  lemma RunsToStep<S(!new)>(moves: Moves<S>, s: S, t: S, u: S, c: ClientId)
    requires RunsTo(moves, s, t) && moves(t, c, u)
    ensures RunsTo(moves, s, u)
  {
    var run :| IsRun(moves, run) && run[0] == s && run[|run| - 1] == t;
    var longer := run + [u];
    forall i | 0 <= i < |longer| - 1 ensures Step(moves, longer[i], longer[i + 1]) {
      if i == |run| - 1 {
        assert Step(moves, t, u);
      } else {
        assert Step(moves, run[i], run[i + 1]);
      }
    }
    assert IsRun(moves, longer) && longer[0] == s && longer[|longer| - 1] == u;
  }

  /** Two runs joined by a move, with the place of that move. */
  lemma JoinRuns<S(!new)>(moves: Moves<S>, s: S, t: S, c: ClientId, t': S, u: S) returns (run: seq<S>, i: nat)
    requires RunsTo(moves, s, t) && moves(t, c, t') && RunsTo(moves, t', u)
    ensures IsRun(moves, run) && run[0] == s && run[|run| - 1] == u
    ensures i + 1 < |run| && run[i] == t && run[i + 1] == t'
  {
    var a :| IsRun(moves, a) && a[0] == s && a[|a| - 1] == t;
    var b :| IsRun(moves, b) && b[0] == t' && b[|b| - 1] == u;
    run, i := a + b, |a| - 1;
    assert Step(moves, t, t');
    forall k | 0 <= k < |run| - 1 ensures Step(moves, run[k], run[k + 1]) {
      if k < |a| - 1 {
        assert Step(moves, a[k], a[k + 1]);
      } else if k >= |a| {
        assert Step(moves, b[k - |a|], b[k - |a| + 1]);
      }
    }
  }
}
