/**
 * What a criterion is worth to a project: its normalised weight times the
 * profile's factor for it. Base scores and every additive rule use this.
 */
module Criteria {
  import opened Dicts
  import opened Domain
  import Weights
  import Profiles

  /** The normalised weights and the chosen profile's factors. */
  datatype Context = Context(weights: Dict<real>, factors: Dict<real>)

  /** `weights.get(c, 0) * profile_factors.get(c, 1)`. */
  function Bonus(ctx: Context, criterion: string): real
  {
    Get(ctx.weights, criterion, 0.0) * Get(ctx.factors, criterion, 1.0)
  }

  /** Weights and factors are all non-negative, as normalising non-negative raw weights gives. */
  predicate NonNegative(ctx: Context)
  {
    Weights.NonNegativeValues(ctx.weights) && Weights.NonNegativeValues(ctx.factors)
  }

  lemma BonusNonNegative(ctx: Context, criterion: string)
    requires NonNegative(ctx)
    ensures Bonus(ctx, criterion) >= 0.0
  {
    var w, f := ctx.weights, ctx.factors;
    if i :| 0 <= i < |w| && w[i].0 == criterion {
      assert Get(w, criterion, 0.0) == w[i].1;
    }
    if i :| 0 <= i < |f| && f[i].0 == criterion {
      assert Get(f, criterion, 1.0) == f[i].1;
    }
  }

  /** Normalised non-negative weights with any profile give a non-negative context. */
  lemma ContextNonNegative(raw: Dict<real>, profile: string)
    requires Weights.NonNegativeValues(raw) && Weights.NormalizeWeights(raw).Success?
    ensures NonNegative(Context(Weights.NormalizeWeights(raw).value, Profiles.ProfileFactors(profile)))
  {
    Weights.NormalizedInUnitInterval(raw);
  }

  /** Sum of the bonuses of a list of criteria, accumulated left to right. */
  function SumBonuses(ctx: Context, criteria: seq<string>): real
  {
    if criteria == [] then 0.0
    else SumBonuses(ctx, criteria[..|criteria| - 1]) + Bonus(ctx, criteria[|criteria| - 1])
  }

  /** The base score of a work: the bonuses of its type's criteria (`works_criteria.get(type, [])`). */
  function BaseScore(ctx: Context, workCriteria: Dict<seq<string>>, w: Work): real
  {
    SumBonuses(ctx, Get(workCriteria, w.kind, []))
  }

  lemma {:induction false} SumBonusesAppend(ctx: Context, a: seq<string>, b: seq<string>)
    ensures SumBonuses(ctx, a + b) == SumBonuses(ctx, a) + SumBonuses(ctx, b)
  {
    if b == [] {
      assert a + b == a;
    } else {
      assert (a + b)[..|a + b| - 1] == a + b[..|b| - 1];
      SumBonusesAppend(ctx, a, b[..|b| - 1]);
    }
  }

  /** Taking one criterion out of the list takes its bonus out of the sum. */
  lemma SumBonusesRemove(ctx: Context, b: seq<string>, k: nat)
    requires k < |b|
    ensures SumBonuses(ctx, b) == SumBonuses(ctx, b[..k] + b[k + 1..]) + Bonus(ctx, b[k])
  {
    assert b == b[..k] + ([b[k]] + b[k + 1..]);
    SumBonusesAppend(ctx, b[..k], [b[k]] + b[k + 1..]);
    SumBonusesAppend(ctx, [b[k]], b[k + 1..]);
    SumBonusesAppend(ctx, b[..k], b[k + 1..]);
    assert SumBonuses(ctx, [b[k]]) == Bonus(ctx, b[k]) by {
      assert [b[k]][..0] == [];
    }
  }

  lemma MultisetRemove(a: seq<string>, b: seq<string>, k: nat)
    requires multiset(a) == multiset(b) && a != [] && k < |b| && b[k] == a[|a| - 1]
    ensures multiset(a[..|a| - 1]) == multiset(b[..k] + b[k + 1..])
  {
    var last := a[|a| - 1];
    assert a == a[..|a| - 1] + [last];
    assert b == b[..k] + [last] + b[k + 1..];
    calc {
      multiset(a[..|a| - 1]);
      multiset(a) - multiset{last};
      multiset(b) - multiset{last};
      multiset(b[..k] + b[k + 1..]);
    }
  }

  /** The order of a type's criteria does not affect its base score. */
  lemma {:induction false} SumBonusesPermutation(ctx: Context, a: seq<string>, b: seq<string>)
    requires multiset(a) == multiset(b)
    ensures SumBonuses(ctx, a) == SumBonuses(ctx, b)
    decreases |a|
  {
    if a == [] {
      assert |b| == |multiset(b)| == 0;
    } else {
      var last := a[|a| - 1];
      assert last in multiset(b);
      var k :| 0 <= k < |b| && b[k] == last;
      MultisetRemove(a, b, k);
      SumBonusesPermutation(ctx, a[..|a| - 1], b[..k] + b[k + 1..]);
      SumBonusesRemove(ctx, b, k);
    }
  }

  /** A type with no mapped criteria scores 0; with a non-negative context no base score is negative. */
  lemma BaseScoreBounds(ctx: Context, workCriteria: Dict<seq<string>>, w: Work)
    ensures (forall i :: 0 <= i < |workCriteria| ==> workCriteria[i].0 != w.kind) ==>
              BaseScore(ctx, workCriteria, w) == 0.0
    ensures NonNegative(ctx) ==> BaseScore(ctx, workCriteria, w) >= 0.0
  {
    if NonNegative(ctx) {
      SumBonusesNonNegative(ctx, Get(workCriteria, w.kind, []));
    }
  }

  lemma {:induction false} SumBonusesNonNegative(ctx: Context, criteria: seq<string>)
    requires NonNegative(ctx)
    ensures SumBonuses(ctx, criteria) >= 0.0
  {
    if criteria != [] {
      SumBonusesNonNegative(ctx, criteria[..|criteria| - 1]);
      BonusNonNegative(ctx, criteria[|criteria| - 1]);
    }
  }
}
