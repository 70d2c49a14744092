/** The mixed-feature distance between two failure candidates. */
module FeatureDistance {

  datatype FeatureValue = Flag(on: bool) | Number(amount: real) | Category(name: string)

  type Features = map<string, FeatureValue>

  /** Equality of the source language: a boolean equals the number one or zero. */
  predicate SameValue(a: FeatureValue, b: FeatureValue) {
    match (a, b)
    case (Flag(x), Flag(y)) => x == y
    case (Flag(x), Number(y)) => y == (if x then 1.0 else 0.0)
    case (Number(x), Flag(y)) => x == (if y then 1.0 else 0.0)
    case (Number(x), Number(y)) => x == y
    case (Category(x), Category(y)) => x == y
    case _ => false
  }

  function Abs(x: real): real { if x < 0.0 then -x else x }

  function Max(x: real, y: real): real { if x < y then y else x }

  /** The scale by which a numeric difference is divided. */
  function Scale(l: real, r: real): (scale: real)
    ensures scale in {1.0, l, -l, r, -r} && 1.0 <= scale && -scale <= l <= scale && -scale <= r <= scale
  {
    Max(Max(1.0, Abs(l)), Abs(r))
  }

  /** What one feature name adds to the total. */
  function Term(f: Features, g: Features, name: string): real {
    if name !in f || name !in g then 1.0
    else
      match (f[name], g[name])
      case (Number(l), Number(r)) =>
        var ratio := Abs(l - r) / Scale(l, r);
        if ratio < 1.0 then ratio else 1.0
      case (a, b) => if SameValue(a, b) then 0.0 else 1.0
  }

  ghost function TermSum(f: Features, g: Features, names: set<string>): real {
    if names == {} then 0.0
    else var n :| n in names; Term(f, g, n) + TermSum(f, g, names - {n})
  }

  /** The average term over all names either side uses; the summation order is irrelevant. */
  ghost function Distance(f: Features, g: Features): real {
    var names := f.Keys + g.Keys;
    if names == {} then 0.0 else TermSum(f, g, names) / |names| as real
  }

  lemma {:induction false} TermSumRemove(f: Features, g: Features, names: set<string>, m: string)
    requires m in names
    ensures TermSum(f, g, names) == Term(f, g, m) + TermSum(f, g, names - {m})
  {
    var n :| n in names && TermSum(f, g, names) == Term(f, g, n) + TermSum(f, g, names - {n});
    if n != m {
      TermSumRemove(f, g, names - {n}, m);
      TermSumRemove(f, g, names - {m}, n);
      assert names - {n} - {m} == names - {m} - {n};
    }
  }

  method MeasureDistance(f: Features, g: Features) returns (d: real)
    ensures d == Distance(f, g)
  {
    var names := f.Keys + g.Keys;
    if names == {} {
      return 0.0;
    }
    var total, left := 0.0, names;
    while left != {}
      invariant left <= names
      invariant total + TermSum(f, g, left) == TermSum(f, g, names)
      decreases left
    {
      var name :| name in left;
      TermSumRemove(f, g, left, name);
      if name !in f || name !in g {
        total := total + 1.0;
      } else if f[name].Number? && g[name].Number? {
        var l, r := f[name].amount, g[name].amount;
        var ratio := Abs(l - r) / Scale(l, r);
        total := total + (if ratio < 1.0 then ratio else 1.0);
      } else {
        total := total + (if SameValue(f[name], g[name]) then 0.0 else 1.0);
      }
      left := left - {name};
    }
    d := total / |names| as real;
  }

  lemma Signs(x: real, s: real)
    requires 0.0 < s
    ensures x < 0.0 ==> x * s < 0.0
    ensures x > 0.0 ==> x * s > 0.0
  {
  }

  lemma RatioZero(a: real, s: real)
    requires 0.0 <= a && 1.0 <= s
    ensures 0.0 <= a / s && (a / s == 0.0 <==> a == 0.0)
  {
    assert (a / s) * s == a;
    Signs(a / s, s);
  }

  lemma TermFacts(f: Features, g: Features, name: string)
    ensures 0.0 <= Term(f, g, name) <= 1.0
    ensures Term(f, g, name) == Term(g, f, name)
    ensures Term(f, g, name) == 0.0 <==> name in f && name in g && SameValue(f[name], g[name])
  {
    if name in f && name in g && f[name].Number? && g[name].Number? {
      var l, r := f[name].amount, g[name].amount;
      RatioZero(Abs(l - r), Scale(l, r));
      assert Abs(l - r) == Abs(r - l) && Scale(l, r) == Scale(r, l);
    }
  }

  lemma {:induction false} TermSumFacts(f: Features, g: Features, names: set<string>)
    ensures 0.0 <= TermSum(f, g, names) <= |names| as real
    ensures TermSum(f, g, names) == TermSum(g, f, names)
    ensures TermSum(f, g, names) == 0.0 <==>
            forall n | n in names :: n in f && n in g && SameValue(f[n], g[n])
  {
    if names == {} {
    } else {
      var n :| n in names;
      TermFacts(f, g, n);
      TermSumRemove(f, g, names, n);
      TermSumRemove(g, f, names, n);
      TermSumFacts(f, g, names - {n});
      assert |names| == |names - {n}| + 1;
    }
  }

  lemma Average(total: real, n: nat)
    requires n > 0 && 0.0 <= total <= n as real
    ensures 0.0 <= total / n as real <= 1.0
    ensures total / n as real == 0.0 <==> total == 0.0
  {
    var q := total / n as real;
    assert q * n as real == total;
    Signs(q, n as real);
    Signs(1.0 - q, n as real);
    assert (1.0 - q) * n as real == n as real - total;
  }

  /** The distance is a symmetric value within 0..1, and is zero exactly when both
      candidates name the same features with equal values. */
  lemma DistanceFacts(f: Features, g: Features)
    ensures 0.0 <= Distance(f, g) <= 1.0
    ensures Distance(f, g) == Distance(g, f)
    ensures Distance(f, g) == 0.0 <==>
            f.Keys == g.Keys && forall n | n in f :: n in g && SameValue(f[n], g[n])
  {
    var names := f.Keys + g.Keys;
    assert names == g.Keys + f.Keys;
    TermSumFacts(f, g, names);
    if names != {} {
      Average(TermSum(f, g, names), |names|);
      if Distance(f, g) == 0.0 {
        assert forall n | n in names :: n in f && n in g;
      }
    }
  }

  // ----- the distance as a count of differences -----

  /** The number that a flag or a number stands for: true is one and false is zero. */
  function Worth(v: FeatureValue): real
    requires !v.Category?
  {
    match v
    case Flag(on) => if on then 1.0 else 0.0
    case Number(amount) => amount
  }

  /** The same category, or the same number. */
  predicate Agree(a: FeatureValue, b: FeatureValue) {
    if a.Category? || b.Category? then a == b else Worth(a) == Worth(b)
  }

  /** The names with a number on both sides. */
  ghost function SharedNumbers(f: Features, g: Features): set<string> {
    set n | n in f && n in g && f[n].Number? && g[n].Number?
  }

  /** The other names that one side lacks, or on which the two sides disagree. */
  ghost function Differing(f: Features, g: Features): set<string> {
    set n | n in f.Keys + g.Keys && n !in SharedNumbers(f, g) && (n !in f || n !in g || !Agree(f[n], g[n]))
  }

  /** How far two numbers are apart, in units of the largest of 1, `|l|` and `|r|`, and at most one. */
  ghost function Gap(l: real, r: real): real {
    var apart, unit := if l < r then r - l else l - r, Scale(l, r);
    if unit <= apart then 1.0 else apart / unit
  }

  ghost function GapSum(f: Features, g: Features, names: set<string>): real
    requires names <= SharedNumbers(f, g)
  {
    if names == {} then 0.0
    else var n :| n in names; Gap(f[n].amount, g[n].amount) + GapSum(f, g, names - {n})
  }

  lemma {:induction false} GapSumRemove(f: Features, g: Features, names: set<string>, m: string)
    requires m in names && names <= SharedNumbers(f, g)
    ensures GapSum(f, g, names) == Gap(f[m].amount, g[m].amount) + GapSum(f, g, names - {m})
  {
    var n :| n in names && GapSum(f, g, names) == Gap(f[n].amount, g[n].amount) + GapSum(f, g, names - {n});
    if n != m {
      GapSumRemove(f, g, names - {n}, m);
      GapSumRemove(f, g, names - {m}, n);
      assert names - {n} - {m} == names - {m} - {n};
    }
  }

  lemma AtMostOne(a: real, s: real)
    requires 0.0 <= a && 1.0 <= s
    ensures a / s < 1.0 <==> a < s
  {
    assert (a / s) * s == a;
    Signs(a / s - 1.0, s);
    assert (a / s - 1.0) * s == a - s;
  }

  lemma TermIsGap(f: Features, g: Features, n: string)
    requires n in SharedNumbers(f, g)
    ensures Term(f, g, n) == Gap(f[n].amount, g[n].amount)
  {
    var l, r := f[n].amount, g[n].amount;
    AtMostOne(Abs(l - r), Scale(l, r));
  }

  lemma TermIsDifference(f: Features, g: Features, n: string)
    requires n in f.Keys + g.Keys && n !in SharedNumbers(f, g)
    ensures Term(f, g, n) == if n in Differing(f, g) then 1.0 else 0.0
  {
  }

  lemma CountStep(all: set<string>, names: set<string>, n: string)
    requires n in names
    ensures |all * names| == |all * (names - {n})| + if n in all then 1 else 0
  {
    if n in all {
      assert all * names == all * (names - {n}) + {n};
    } else {
      assert all * names == all * (names - {n});
    }
  }

  lemma GapStep(f: Features, g: Features, numbers: set<string>, names: set<string>, n: string)
    requires numbers <= SharedNumbers(f, g) && n in names
    ensures GapSum(f, g, numbers * names)
         == (if n in numbers then Gap(f[n].amount, g[n].amount) else 0.0) + GapSum(f, g, numbers * (names - {n}))
  {
    if n in numbers {
      GapSumRemove(f, g, numbers * names, n);
      assert numbers * names - {n} == numbers * (names - {n});
    } else {
      assert numbers * names == numbers * (names - {n});
    }
  }

  lemma TermSplit(f: Features, g: Features, n: string)
    requires n in f.Keys + g.Keys
    ensures Term(f, g, n) == (if n in Differing(f, g) then 1.0 else 0.0)
                             + (if n in SharedNumbers(f, g) then Gap(f[n].amount, g[n].amount) else 0.0)
  {
    if n in SharedNumbers(f, g) {
      TermIsGap(f, g, n);
    } else {
      TermIsDifference(f, g, n);
    }
  }

  lemma {:induction false} TermSumCounts(f: Features, g: Features, differing: set<string>, numbers: set<string>,
                                         names: set<string>)
    requires differing == Differing(f, g) && numbers == SharedNumbers(f, g) && names <= f.Keys + g.Keys
    ensures TermSum(f, g, names) == |differing * names| as real + GapSum(f, g, numbers * names)
  {
    if names == {} {
      assert differing * names == {} && numbers * names == {};
    } else {
      var n :| n in names;
      TermSumRemove(f, g, names, n);
      TermSumCounts(f, g, differing, numbers, names - {n});
      TermSplit(f, g, n);
      CountStep(differing, names, n);
      GapStep(f, g, numbers, names, n);
    }
  }

  /** What two candidates differ by: one for each differing name, and the gaps of their shared numbers. */
  ghost function Difference(f: Features, g: Features): real {
    |Differing(f, g)| as real + GapSum(f, g, SharedNumbers(f, g))
  }

  /** The distance is the difference, shared out over all names; without shared numbers it counts names. */
  lemma DistanceCounts(f: Features, g: Features)
    ensures Distance(f, g)
         == if f.Keys + g.Keys == {} then 0.0 else Difference(f, g) / |f.Keys + g.Keys| as real
    ensures SharedNumbers(f, g) == {} ==> Difference(f, g) == |Differing(f, g)| as real
  {
    var names, differing, numbers := f.Keys + g.Keys, Differing(f, g), SharedNumbers(f, g);
    TermSumCounts(f, g, differing, numbers, names);
    assert differing * names == differing && numbers * names == numbers;
  }

  lemma AtMostEach(total: real, n: nat, eps: real)
    requires n > 0
    ensures total / n as real <= eps <==> total <= eps * n as real
  {
    var d := total / n as real;
    assert d * n as real == total;
    Signs(eps - d, n as real);
    assert (eps - d) * n as real == eps * n as real - total;
  }

  lemma NoNames(f: Features, g: Features)
    requires f.Keys + g.Keys == {}
    ensures Difference(f, g) == 0.0
  {
    assert Differing(f, g) == {} && SharedNumbers(f, g) == {};
  }

  /** The difference is at most `eps` for each name. */
  ghost predicate DifferByAtMost(f: Features, g: Features, eps: real) {
    Difference(f, g) <= eps * |f.Keys + g.Keys| as real
  }

  /** Two candidates are near exactly when they differ by at most epsilon for each name. */
  lemma NearIff(f: Features, g: Features, eps: real)
    requires eps >= 0.0
    ensures Distance(f, g) <= eps <==> DifferByAtMost(f, g, eps)
  {
    var names, total := f.Keys + g.Keys, Difference(f, g);
    DistanceCounts(f, g);
    if names == {} {
      NoNames(f, g);
    } else {
      AtMostEach(total, |names|, eps);
    }
  }

  /** Without shared numbers only the count of differing names matters. */
  lemma NearIffFewDiffer(f: Features, g: Features, eps: real)
    requires eps >= 0.0 && SharedNumbers(f, g) == {}
    ensures Distance(f, g) <= eps <==> |Differing(f, g)| as real <= eps * |f.Keys + g.Keys| as real
  {
    NearIff(f, g, eps);
    DistanceCounts(f, g);
  }
}
