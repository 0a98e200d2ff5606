/**
 * The table of works and their scores that `prioritize` builds and then
 * updates pass by pass. The works are fixed; the score column is updated
 * in place.
 */
module Scoring {
  import opened Dicts
  import opened Domain
  import opened Criteria
  import opened Rules
  import opened Adjustments
  import opened Ranking

  /** The rows of a table: each work next to its score. */
  function Zip(works: seq<Work>, scores: seq<real>): seq<Row>
    requires |works| == |scores|
  {
    seq(|works|, i requires 0 <= i < |works| => Row(works[i], scores[i]))
  }

  class ScoreTable {
    /** The catalogue, one row per work, in catalogue order. */
    const works: seq<Work>
    /** The `Score` column. */
    const scores: array<real>

    /** `df = works_df.copy(); df['Score'] = 0.0`. */
    constructor(works: seq<Work>)
      ensures this.works == works
      ensures fresh(scores) && scores.Length == |works|
      ensures forall i :: 0 <= i < scores.Length ==> scores[i] == 0.0
    {
      this.works := works;
      scores := new real[|works|](_ => 0.0);
    }

    function Rows(): (r: seq<Row>)
      requires scores.Length == |works|
      reads scores
      ensures |r| == |works|
    {
      Zip(works, scores[..])
    }

    /**
     * `_calculate_base_scores`: for each row, accumulate the bonuses of the
     * criteria of its type, then write the total into the row.
     */
    method ComputeBaseScores(ctx: Context, workCriteria: Dict<seq<string>>)
      requires scores.Length == |works|
      modifies scores
      ensures forall i :: 0 <= i < |works| ==> scores[i] == BaseScore(ctx, workCriteria, works[i])
    {
      for i := 0 to scores.Length
        invariant forall k :: 0 <= k < i ==> scores[k] == BaseScore(ctx, workCriteria, works[k])
      {
        var criteria := Get(workCriteria, works[i].kind, []);
        var total := 0.0;
        for j := 0 to |criteria|
          invariant total == SumBonuses(ctx, criteria[..j])
        {
          total := total + Get(ctx.weights, criteria[j], 0.0) * Get(ctx.factors, criteria[j], 1.0);
          assert criteria[..j + 1][..j] == criteria[..j];
        }
        assert criteria[..|criteria|] == criteria;
        scores[i] := total;
      }
    }

    /** One column update: every selected row gets the rule's effect, the others keep their score. */
    method Apply(ctx: Context, rule: Rule)
      requires scores.Length == |works|
      modifies scores
      ensures forall i :: 0 <= i < |works| ==> scores[i] == ApplyRule(ctx, rule, works[i], old(scores[i]))
    {
      for i := 0 to scores.Length
        invariant forall k :: 0 <= k < i ==> scores[k] == ApplyRule(ctx, rule, works[k], old(scores[k]))
        invariant forall k :: i <= k < scores.Length ==> scores[k] == old(scores[k])
      {
        if Selects(rule.selector, works[i]) {
          match rule.effect
          case AddBonus(c) =>
            scores[i] := scores[i] + Bonus(ctx, c);
          case SetZero =>
            scores[i] := 0.0;
          case Scale(f) =>
            scores[i] := scores[i] * f;
        }
      }
    }

    /** A pass: its column updates, first to last. */
    method ApplyInOrder(ctx: Context, rules: seq<Rule>)
      requires scores.Length == |works|
      modifies scores
      ensures forall i :: 0 <= i < |works| ==> scores[i] == ApplyRules(ctx, rules, works[i], old(scores[i]))
    {
      for k := 0 to |rules|
        invariant forall i :: 0 <= i < |works| ==> scores[i] == ApplyRules(ctx, rules[..k], works[i], old(scores[i]))
      {
        Apply(ctx, rules[k]);
        assert rules[..k + 1][..k] == rules[..k];
      }
      assert rules[..|rules|] == rules;
    }

    /**
     * `_apply_housing_adjustments`. Heat-pump rows are zeroed when the dwelling
     * has a heat pump; rows of descriptions the pass does not name keep their score.
     */
    method HousingAdjustments(ctx: Context, h: Housing)
      requires scores.Length == |works|
      modifies scores
      ensures forall i :: 0 <= i < |works| ==> scores[i] == ApplyRules(ctx, HousingRules(h), works[i], old(scores[i]))
      ensures forall i :: 0 <= i < |works| && works[i].description == HeatPump ==>
                scores[i] == if h.heatingType == "heat_pump" then 0.0 else old(scores[i]) + Bonus(ctx, Sustainability)
      ensures forall i :: 0 <= i < |works| && works[i].description !in HousingDescriptions ==>
                scores[i] == old(scores[i])
    {
      ApplyInOrder(ctx, HousingRules(h));
      forall i | 0 <= i < |works|
        ensures works[i].description == HeatPump ==>
                  scores[i] == if h.heatingType == "heat_pump" then 0.0 else old(scores[i]) + Bonus(ctx, Sustainability)
        ensures works[i].description !in HousingDescriptions ==> scores[i] == old(scores[i])
      {
        if works[i].description == HeatPump {
          HousingHeatPump(ctx, h, works[i], old(scores[i]));
        } else if works[i].description !in HousingDescriptions {
          HousingLeavesOthers(ctx, h, works[i], old(scores[i]));
        }
      }
    }

    /**
     * `_apply_budget_adjustments`: every score is multiplied by positive
     * factors only (`BudgetScales`), so no score changes sign.
     */
    method BudgetAdjustments(ctx: Context, b: BudgetData)
      requires scores.Length == |works|
      modifies scores
      ensures forall i :: 0 <= i < |works| ==> scores[i] == ApplyRules(ctx, BudgetRules(b), works[i], old(scores[i]))
      ensures forall i :: 0 <= i < |works| ==> SameSign(scores[i], old(scores[i]))
    {
      ApplyInOrder(ctx, BudgetRules(b));
      forall i | 0 <= i < |works|
        ensures SameSign(scores[i], old(scores[i]))
      {
        BudgetPreservesSign(ctx, b, works[i], old(scores[i]));
      }
    }

    /**
     * `_apply_technical_adjustments`: bonuses only, so with non-negative
     * weights no score decreases; rows the pass does not name keep their score.
     */
    method TechnicalAdjustments(ctx: Context, t: TechnicalData)
      requires scores.Length == |works|
      modifies scores
      ensures forall i :: 0 <= i < |works| ==> scores[i] == ApplyRules(ctx, TechnicalRules(t), works[i], old(scores[i]))
      ensures NonNegative(ctx) ==> forall i :: 0 <= i < |works| ==> scores[i] >= old(scores[i])
      ensures forall i :: (0 <= i < |works| && works[i].description !in {Photovoltaic, SolarWaterHeater, Ventilation}
                           && (works[i].description == HeatPump ==> works[i].kind != HotWater)) ==>
                scores[i] == old(scores[i])
    {
      ApplyInOrder(ctx, TechnicalRules(t));
      forall i | 0 <= i < |works|
        ensures NonNegative(ctx) ==> scores[i] >= old(scores[i])
        ensures (works[i].description !in {Photovoltaic, SolarWaterHeater, Ventilation}
                 && (works[i].description == HeatPump ==> works[i].kind != HotWater)) ==>
                scores[i] == old(scores[i])
      {
        if NonNegative(ctx) {
          TechnicalOnlyAdds(ctx, t, works[i], old(scores[i]));
        }
        if works[i].description !in {Photovoltaic, SolarWaterHeater, Ventilation}
           && (works[i].description == HeatPump ==> works[i].kind != HotWater) {
          TechnicalLeavesOthers(ctx, t, works[i], old(scores[i]));
        }
      }
    }
  }
}
