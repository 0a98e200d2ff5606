/**
 * The three adjustment passes are sequences of column updates on the score
 * table. Each update selects rows (by description, description and type,
 * type, or grant) and either adds a criterion bonus, sets the score to 0,
 * or multiplies it by a constant.
 */
module Rules {
  import opened Domain
  import opened Criteria

  datatype Selector =
    | Described(text: string)                 // df['Description'] == text
    | DescribedAs(text: string, kind: string) // ... & (df['Type'] == kind)
    | OfType(kinds: seq<string>)              // x['Type'] in kinds
    | GrantAbove(limit: int)                  // x['Estimated Grant'] > limit

  datatype Effect =
    | AddBonus(criterion: string)  // df.loc[mask, 'Score'] += bonus
    | SetZero                      // df.loc[mask, 'Score'] = 0
    | Scale(factor: real)          // x['Score'] * factor

  datatype Rule = Rule(selector: Selector, effect: Effect)

  predicate Selects(s: Selector, w: Work)
  {
    match s
    case Described(text) => w.description == text
    case DescribedAs(text, kind) => w.description == text && w.kind == kind
    case OfType(kinds) => w.kind in kinds
    case GrantAbove(limit) => w.grant > limit as real
  }

  /** The score of a row after one update. */
  function ApplyRule(ctx: Context, r: Rule, w: Work, score: real): real
  {
    if !Selects(r.selector, w) then score
    else
      match r.effect
      case AddBonus(c) => score + Bonus(ctx, c)
      case SetZero => 0.0
      case Scale(f) => score * f
  }

  /** The score of a row after the updates `rules`, first to last. */
  function ApplyRules(ctx: Context, rules: seq<Rule>, w: Work, score: real): real
  {
    if rules == [] then score
    else ApplyRule(ctx, rules[|rules| - 1], w, ApplyRules(ctx, rules[..|rules| - 1], w, score))
  }

  lemma ApplyRulesSingle(ctx: Context, r: Rule, w: Work, score: real)
    ensures ApplyRules(ctx, [r], w, score) == ApplyRule(ctx, r, w, score)
  {
    assert [r][..0] == [];
  }

  /** A block of at most one update: an `if` in the source that issues one column update or none. */
  lemma ApplyRulesOptional(ctx: Context, rules: seq<Rule>, w: Work, score: real)
    requires |rules| <= 1
    ensures ApplyRules(ctx, rules, w, score) == if rules == [] then score else ApplyRule(ctx, rules[0], w, score)
  {
    if rules != [] {
      ApplyRulesSingle(ctx, rules[0], w, score);
    }
  }

  /** Running two lists of updates in turn is running their concatenation. */
  lemma {:induction false} ApplyRulesAppend(ctx: Context, a: seq<Rule>, b: seq<Rule>, w: Work, score: real)
    ensures ApplyRules(ctx, a + b, w, score) == ApplyRules(ctx, b, w, ApplyRules(ctx, a, w, score))
    decreases |b|
  {
    if b == [] {
      assert a + b == a;
    } else {
      assert (a + b)[..|a + b| - 1] == a + b[..|b| - 1];
      ApplyRulesAppend(ctx, a, b[..|b| - 1], w, score);
    }
  }

  /** No update in the list selects the row. */
  predicate Untouched(rules: seq<Rule>, w: Work)
  {
    forall i :: 0 <= i < |rules| ==> !Selects(rules[i].selector, w)
  }

  /** A row no update selects keeps its score. */
  lemma {:induction false} ApplyRulesUntouched(ctx: Context, rules: seq<Rule>, w: Work, score: real)
    requires Untouched(rules, w)
    ensures ApplyRules(ctx, rules, w, score) == score
  {
    if rules != [] {
      ApplyRulesUntouched(ctx, rules[..|rules| - 1], w, score);
    }
  }

  /** Every update in the list adds a bonus. */
  predicate Additive(rules: seq<Rule>)
  {
    forall i :: 0 <= i < |rules| ==> rules[i].effect.AddBonus?
  }

  /** Additive updates with non-negative bonuses never lower a score. */
  lemma {:induction false} ApplyRulesAdditive(ctx: Context, rules: seq<Rule>, w: Work, score: real)
    requires Additive(rules) && NonNegative(ctx)
    ensures ApplyRules(ctx, rules, w, score) >= score
  {
    if rules != [] {
      ApplyRulesAdditive(ctx, rules[..|rules| - 1], w, score);
      BonusNonNegative(ctx, rules[|rules| - 1].effect.criterion);
    }
  }

  /** No update in the list multiplies by a negative factor. */
  predicate KeepsSign(rules: seq<Rule>)
  {
    forall i :: 0 <= i < |rules| ==> (rules[i].effect.Scale? ==> rules[i].effect.factor >= 0.0)
  }

  /** Bonuses, zeroing and non-negative factors keep a non-negative score non-negative. */
  lemma {:induction false} ApplyRulesNonNegative(ctx: Context, rules: seq<Rule>, w: Work, score: real)
    requires KeepsSign(rules) && NonNegative(ctx) && score >= 0.0
    ensures ApplyRules(ctx, rules, w, score) >= 0.0
  {
    if rules != [] {
      var last := rules[|rules| - 1];
      ApplyRulesNonNegative(ctx, rules[..|rules| - 1], w, score);
      var before := ApplyRules(ctx, rules[..|rules| - 1], w, score);
      match last.effect
      case AddBonus(c) => BonusNonNegative(ctx, c);
      case SetZero =>
      case Scale(f) => assert before * f >= 0.0;
    }
  }

  /** Every update in the list multiplies by a constant. */
  predicate Scaling(rules: seq<Rule>)
  {
    forall i :: 0 <= i < |rules| ==> rules[i].effect.Scale?
  }

  /** The product of the factors of the updates that select the row. */
  function ScaleProduct(rules: seq<Rule>, w: Work): real
    requires Scaling(rules)
  {
    if rules == [] then 1.0
    else
      var last := rules[|rules| - 1];
      ScaleProduct(rules[..|rules| - 1], w) * (if Selects(last.selector, w) then last.effect.factor else 1.0)
  }

  /** Scaling updates multiply the score by the product of the selected factors. */
  lemma {:induction false} ApplyRulesScaling(ctx: Context, rules: seq<Rule>, w: Work, score: real)
    requires Scaling(rules)
    ensures ApplyRules(ctx, rules, w, score) == score * ScaleProduct(rules, w)
  {
    if rules != [] {
      var init, last := rules[..|rules| - 1], rules[|rules| - 1];
      ApplyRulesScaling(ctx, init, w, score);
      var p, f := ScaleProduct(init, w), if Selects(last.selector, w) then last.effect.factor else 1.0;
      assert ApplyRules(ctx, rules, w, score) == score * p * f;
      assert score * p * f == score * (p * f);
    }
  }

  /** The same, for a product already known under another name. */
  lemma ApplyRulesScalesBy(ctx: Context, rules: seq<Rule>, w: Work, score: real, f: real)
    requires Scaling(rules) && ScaleProduct(rules, w) == f
    ensures ApplyRules(ctx, rules, w, score) == score * f
  {
    ApplyRulesScaling(ctx, rules, w, score);
  }

  lemma {:induction false} ScaleProductAppend(a: seq<Rule>, b: seq<Rule>, w: Work)
    requires Scaling(a) && Scaling(b)
    ensures Scaling(a + b) && ScaleProduct(a + b, w) == ScaleProduct(a, w) * ScaleProduct(b, w)
    decreases |b|
  {
    assert Scaling(a + b);
    if b == [] {
      assert a + b == a;
    } else {
      var init, last := b[..|b| - 1], b[|b| - 1];
      assert (a + b)[..|a + b| - 1] == a + init;
      ScaleProductAppend(a, init, w);
      var pa, pi := ScaleProduct(a, w), ScaleProduct(init, w);
      var f := if Selects(last.selector, w) then last.effect.factor else 1.0;
      assert ScaleProduct(a + b, w) == pa * pi * f;
      assert pa * pi * f == pa * (pi * f);
    }
  }
}
