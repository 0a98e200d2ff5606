/**
 * `PrioritizationSystem.prioritize`, end to end: normalise the weights,
 * classify the income, score the catalogue, run the three passes, keep and
 * sort the positive rows, and attach the eligible grants.
 */
module Pipeline {
  import opened Wrappers
  import opened Dicts
  import opened Domain
  import opened Weights
  import opened Income
  import opened Profiles
  import opened Criteria
  import opened Rules
  import opened Adjustments
  import opened Ranking
  import opened Scoring
  import opened Grants

  /** The contents of the three JSON tables: raw weights, criteria per work type, income thresholds. */
  datatype Config = Config(rawWeights: Dict<real>, workCriteria: Dict<seq<string>>, incomeThresholds: Dict<int>)

  /** The score of a work after the base score and the housing, budget and technical passes. */
  function FinalScore(ctx: Context, workCriteria: Dict<seq<string>>, p: Project, w: Work): real
  {
    var base := BaseScore(ctx, workCriteria, w);
    var housed := ApplyRules(ctx, HousingRules(p.housing), w, base);
    var budgeted := ApplyRules(ctx, BudgetRules(p.budget), w, housed);
    ApplyRules(ctx, TechnicalRules(p.technical), w, budgeted)
  }

  /** The score table after the three passes, in catalogue order. */
  function ScoredRows(ctx: Context, workCriteria: Dict<seq<string>>, p: Project, works: seq<Work>): seq<Row>
  {
    seq(|works|, i requires 0 <= i < |works| => Row(works[i], FinalScore(ctx, workCriteria, p, works[i])))
  }

  /** The work and score columns of the result. */
  function Unranked(r: seq<Ranked>): seq<Row>
  {
    seq(|r|, i requires 0 <= i < |r| => Row(r[i].work, r[i].score))
  }

  /** What `__init__` derives before any score: the normalised weights with the profile's factors, and the tier. */
  function Setup(p: Project, c: Config): (r: Result<(Context, Tier), Error>)
    ensures NormalizeWeights(c.rawWeights).Failure? ==> r == Failure(ZeroWeightTotal)
    ensures NormalizeWeights(c.rawWeights).Success? ==>
              r.Failure? == IncomeCategory(p.budget.householdIncome, p.budget.childNumber, c.incomeThresholds).Failure?
    ensures NormalizeWeights(c.rawWeights).Success? && r.Failure? ==>
              r.error == IncomeCategory(p.budget.householdIncome, p.budget.childNumber, c.incomeThresholds).error
    ensures r.Success? ==>
              r.value.0 == Context(NormalizeWeights(c.rawWeights).value, ProfileFactors(p.profile)) &&
              r.value.1 == IncomeCategory(p.budget.householdIncome, p.budget.childNumber, c.incomeThresholds).value
  {
    var weights :- NormalizeWeights(c.rawWeights);
    var tier :- IncomeCategory(p.budget.householdIncome, p.budget.childNumber, c.incomeThresholds);
    Success((Context(weights, ProfileFactors(p.profile)), tier))
  }

  /**
   * `prioritize`. Fails as the source raises: a zero weight total, then an
   * income category without a multiplier, then a negative surface or an
   * unknown roof type. Otherwise the result ranks exactly the works of
   * positive final score, highest first, each with its eligible grant.
   */
  method Prioritize(p: Project, c: Config, catalogue: seq<Work>, g: Geometry) returns (r: Result<seq<Ranked>, Error>)
    ensures Setup(p, c).Failure? ==> r.Failure? && r.error == Setup(p, c).error
    ensures Setup(p, c).Success? ==>
              (r.Failure? <==> p.housing.surface < 0 || p.housing.roofType !in {"flat", "single", "double"})
    ensures Setup(p, c).Success? && r.Failure? ==> r.error == SurfacesOf(p.housing, p.budget.floorNumber, g).error
    ensures r.Success? ==>
              Setup(p, c).Success? &&
              var (ctx, tier) := Setup(p, c).value;
              IsRanking(ScoredRows(ctx, c.workCriteria, p, catalogue), Unranked(r.value)) &&
              forall i :: 0 <= i < |r.value| ==>
                r.value[i].eligibleGrant == GrantFor(SurfacesOf(p.housing, p.budget.floorNumber, g).value, tier, r.value[i].work)
  {
    var setup :- Setup(p, c);
    var (ctx, tier) := setup;
    var rows := ScoreCatalogue(ctx, c.workCriteria, p, catalogue);
    var ranked := Rank(rows);
    r := EligibleGrants(ranked, p.housing, p.budget.floorNumber, tier, g);
    if r.Success? {
      assert Unranked(r.value) == ranked;
    }
  }

  /**
   * The table work of `prioritize`: base scores, then the housing, budget
   * and technical passes, each over the whole score column in place.
   */
  method ScoreCatalogue(ctx: Context, workCriteria: Dict<seq<string>>, p: Project, catalogue: seq<Work>)
    returns (rows: seq<Row>)
    ensures rows == ScoredRows(ctx, workCriteria, p, catalogue)
  {
    var table := new ScoreTable(catalogue);
    table.ComputeBaseScores(ctx, workCriteria);
    ghost var base := table.scores[..];
    table.HousingAdjustments(ctx, p.housing);
    ghost var housed := table.scores[..];
    table.BudgetAdjustments(ctx, p.budget);
    ghost var budgeted := table.scores[..];
    table.TechnicalAdjustments(ctx, p.technical);
    rows := table.Rows();
    ChainedPasses(ctx, workCriteria, p, catalogue, base, housed, budgeted, table.scores[..]);
  }

  /** Score columns related pass by pass make the rows of `ScoredRows`. */
  lemma ChainedPasses(ctx: Context, workCriteria: Dict<seq<string>>, p: Project, works: seq<Work>,
                      base: seq<real>, housed: seq<real>, budgeted: seq<real>, final: seq<real>)
    requires |base| == |housed| == |budgeted| == |final| == |works|
    requires forall i :: 0 <= i < |works| ==> base[i] == BaseScore(ctx, workCriteria, works[i])
    requires forall i :: 0 <= i < |works| ==> housed[i] == ApplyRules(ctx, HousingRules(p.housing), works[i], base[i])
    requires forall i :: 0 <= i < |works| ==> budgeted[i] == ApplyRules(ctx, BudgetRules(p.budget), works[i], housed[i])
    requires forall i :: 0 <= i < |works| ==> final[i] == ApplyRules(ctx, TechnicalRules(p.technical), works[i], budgeted[i])
    ensures Zip(works, final) == ScoredRows(ctx, workCriteria, p, works)
  {
  }

  // --------------------------------------------------------- cross-pass facts

  /** Every update of the three passes keeps a non-negative score non-negative. */
  lemma PassesKeepSign(p: Project)
    ensures KeepsSign(HousingRules(p.housing)) && KeepsSign(BudgetRules(p.budget)) && KeepsSign(TechnicalRules(p.technical))
  {
    var rules := HousingRules(p.housing);
    forall i | 0 <= i < |rules| ensures rules[i].effect.Scale? ==> rules[i].effect.factor >= 0.0 {
      assert !rules[i].effect.Scale?;
    }
  }

  /**
   * With non-negative raw weights no final score is negative, so dropping the
   * rows of score at most 0 drops exactly the rows of score 0.
   */
  lemma FinalScoreNonNegative(ctx: Context, workCriteria: Dict<seq<string>>, p: Project, w: Work)
    requires NonNegative(ctx)
    ensures FinalScore(ctx, workCriteria, p, w) >= 0.0
  {
    PassesKeepSign(p);
    var base := BaseScore(ctx, workCriteria, w);
    BaseScoreBounds(ctx, workCriteria, w);
    ApplyRulesNonNegative(ctx, HousingRules(p.housing), w, base);
    var housed := ApplyRules(ctx, HousingRules(p.housing), w, base);
    ApplyRulesNonNegative(ctx, BudgetRules(p.budget), w, housed);
    var budgeted := ApplyRules(ctx, BudgetRules(p.budget), w, housed);
    ApplyRulesNonNegative(ctx, TechnicalRules(p.technical), w, budgeted);
  }

  /**
   * A "Heat pump" work of type "Hot water" in a dwelling heated by a heat
   * pump is zeroed by the housing pass, stays 0 through the budget pass, and
   * regains the sustainability bonus in the technical pass unless the boiler
   * is a heat pump too.
   */
  lemma HeatPumpRegainsInTechnicalPass(ctx: Context, workCriteria: Dict<seq<string>>, p: Project, w: Work)
    requires w.description == HeatPump && w.kind == HotWater && p.housing.heatingType == "heat_pump"
    ensures FinalScore(ctx, workCriteria, p, w) ==
            if p.technical.boilerType != "heat_pump" then Bonus(ctx, Sustainability) else 0.0
  {
    var base := BaseScore(ctx, workCriteria, w);
    HousingHeatPump(ctx, p.housing, w, base);
    BudgetPreservesSign(ctx, p.budget, w, 0.0);
    TechnicalHeatPump(ctx, p.technical, w, 0.0);
  }

  /** Any other "Heat pump" work in a dwelling heated by a heat pump ends at 0 and is not ranked. */
  lemma HeatPumpNotRanked(ctx: Context, c: Config, p: Project, catalogue: seq<Work>, ranked: seq<Row>, w: Work)
    requires w.description == HeatPump && w.kind != HotWater && p.housing.heatingType == "heat_pump"
    requires IsRanking(ScoredRows(ctx, c.workCriteria, p, catalogue), ranked)
    ensures FinalScore(ctx, c.workCriteria, p, w) == 0.0
    ensures forall x :: x in ranked ==> x.work != w
  {
    var base := BaseScore(ctx, c.workCriteria, w);
    HousingHeatPump(ctx, p.housing, w, base);
    BudgetPreservesSign(ctx, p.budget, w, 0.0);
    TechnicalLeavesOthers(ctx, p.technical, w, 0.0);
    RankedRowsPositive(ScoredRows(ctx, c.workCriteria, p, catalogue), ranked);
    var table := ScoredRows(ctx, c.workCriteria, p, catalogue);
    forall x | x in ranked ensures x.work != w {
      var i :| 0 <= i < |table| && table[i] == x;
    }
  }

  /**
   * A "Programmable Thermostat" work in a dwelling that has one is zeroed by
   * the thermostat rule, yet below 18 degrees the temperature rule gives it
   * the energy-savings bonus again: its final score is that bonus through the
   * budget pass, which is positive whenever the bonus is.
   */
  lemma ThermostatRebonused(ctx: Context, workCriteria: Dict<seq<string>>, p: Project, w: Work)
    requires w.description == Thermostat
    requires p.housing.programmableThermostat != "no" && p.housing.averageTemperature == "<18"
    ensures FinalScore(ctx, workCriteria, p, w) == ApplyRules(ctx, BudgetRules(p.budget), w, Bonus(ctx, EnergySavings))
    ensures Bonus(ctx, EnergySavings) > 0.0 ==> FinalScore(ctx, workCriteria, p, w) > 0.0
  {
    var base := BaseScore(ctx, workCriteria, w);
    HousingThermostat(ctx, p.housing, w, base);
    var budgeted := ApplyRules(ctx, BudgetRules(p.budget), w, Bonus(ctx, EnergySavings));
    TechnicalLeavesOthers(ctx, p.technical, w, budgeted);
    BudgetPreservesSign(ctx, p.budget, w, Bonus(ctx, EnergySavings));
  }

  /** Such a thermostat work of the catalogue is ranked, with that final score, whenever the bonus is positive. */
  lemma ThermostatRanked(ctx: Context, workCriteria: Dict<seq<string>>, p: Project, catalogue: seq<Work>, ranked: seq<Row>, w: Work)
    requires w.description == Thermostat && w in catalogue
    requires p.housing.programmableThermostat != "no" && p.housing.averageTemperature == "<18"
    requires Bonus(ctx, EnergySavings) > 0.0
    requires IsRanking(ScoredRows(ctx, workCriteria, p, catalogue), ranked)
    ensures Row(w, FinalScore(ctx, workCriteria, p, w)) in ranked
  {
    ThermostatRebonused(ctx, workCriteria, p, w);
    var table := ScoredRows(ctx, workCriteria, p, catalogue);
    var i :| 0 <= i < |catalogue| && catalogue[i] == w;
    assert table[i] == Row(w, FinalScore(ctx, workCriteria, p, w));
    PositiveRowsRanked(table, ranked, table[i]);
  }
}
