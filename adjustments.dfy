/**
 * The rule lists of the housing, budget and technical passes, built from the
 * project's answers with the same branches, in the same order, as the
 * source's passes. Each block below is one `if` of the source; a block's
 * lemma gives the score of any row after it in closed form, and the pass
 * lemmas chain the blocks.
 */
module Adjustments {
  import opened Domain
  import opened Criteria
  import opened Rules

  // ---------------------------------------------------------------- housing

  function HeatingRules(h: Housing): seq<Rule>
  {
    if h.heatingType != "heat_pump" then [Rule(Described(HeatPump), AddBonus(Sustainability))]
    else [Rule(Described(HeatPump), SetZero)]
  }

  function ThermostatRules(h: Housing): seq<Rule>
  {
    if h.programmableThermostat == "no" then [Rule(Described(Thermostat), AddBonus(EnergySavings))]
    else [Rule(Described(Thermostat), SetZero)]
  }

  /** The (description, criterion) list the low-temperature rule walks through. */
  const TemperatureAdjustments: seq<(string, string)> :=
    [(Thermostat, EnergySavings), (WallInsulation, Comfort), (RoofInsulation, ThermalInsulation), (FloorInsulation, Comfort)]

  function TemperatureRules(h: Housing): (rules: seq<Rule>)
    ensures |rules| == if h.averageTemperature == "<18" then 4 else 0
  {
    if h.averageTemperature == "<18" then
      seq(4, i requires 0 <= i < 4 =>
        Rule(Described(TemperatureAdjustments[i].0), AddBonus(TemperatureAdjustments[i].1)))
    else []
  }

  function WallInsulationRules(h: Housing): seq<Rule>
  {
    if h.wallInsulation == "no" then [Rule(Described(WallInsulation), AddBonus(ThermalInsulation))] else []
  }

  function RoofInsulationRules(h: Housing): seq<Rule>
  {
    if h.roofInsulation == "no" then [Rule(Described(RoofInsulation), AddBonus(ThermalInsulation))] else []
  }

  function FloorInsulationRules(h: Housing): seq<Rule>
  {
    if h.floorInsulation == "no" then [Rule(Described(FloorInsulation), AddBonus(ThermalInsulation))] else []
  }

  /** `_apply_housing_adjustments`: heating, thermostat, temperature, then wall, roof and floor insulation. */
  function HousingRules(h: Housing): seq<Rule>
  {
    HeatingRules(h) + ThermostatRules(h) + TemperatureRules(h)
    + WallInsulationRules(h) + RoofInsulationRules(h) + FloorInsulationRules(h)
  }

  lemma HeatingBlock(ctx: Context, h: Housing, w: Work, s: real)
    ensures ApplyRules(ctx, HeatingRules(h), w, s) ==
            if w.description != HeatPump then s
            else if h.heatingType == "heat_pump" then 0.0
            else s + Bonus(ctx, Sustainability)
  {
    ApplyRulesOptional(ctx, HeatingRules(h), w, s);
  }

  lemma ThermostatBlock(ctx: Context, h: Housing, w: Work, s: real)
    ensures ApplyRules(ctx, ThermostatRules(h), w, s) ==
            if w.description != Thermostat then s
            else if h.programmableThermostat == "no" then s + Bonus(ctx, EnergySavings)
            else 0.0
  {
    ApplyRulesOptional(ctx, ThermostatRules(h), w, s);
  }

  /** The bonus the low-temperature rule gives a row: the criterion paired with its description. */
  function TemperatureBonus(ctx: Context, w: Work): real
  {
    if w.description == Thermostat then Bonus(ctx, EnergySavings)
    else if w.description == WallInsulation then Bonus(ctx, Comfort)
    else if w.description == RoofInsulation then Bonus(ctx, ThermalInsulation)
    else if w.description == FloorInsulation then Bonus(ctx, Comfort)
    else 0.0
  }

  lemma TemperatureBlock(ctx: Context, h: Housing, w: Work, s: real)
    ensures ApplyRules(ctx, TemperatureRules(h), w, s) ==
            if h.averageTemperature == "<18" then s + TemperatureBonus(ctx, w) else s
  {
    var t := TemperatureRules(h);
    if h.averageTemperature == "<18" {
      assert t == [t[0]] + [t[1]] + [t[2]] + [t[3]];
      ApplyRulesAppend(ctx, [t[0]] + [t[1]] + [t[2]], [t[3]], w, s);
      ApplyRulesAppend(ctx, [t[0]] + [t[1]], [t[2]], w, s);
      ApplyRulesAppend(ctx, [t[0]], [t[1]], w, s);
      ApplyRulesSingle(ctx, t[0], w, s);
      var s1 := ApplyRules(ctx, [t[0]], w, s);
      ApplyRulesSingle(ctx, t[1], w, s1);
      var s2 := ApplyRules(ctx, [t[1]], w, s1);
      ApplyRulesSingle(ctx, t[2], w, s2);
      var s3 := ApplyRules(ctx, [t[2]], w, s2);
      ApplyRulesSingle(ctx, t[3], w, s3);
    }
  }

  lemma InsulationBlocks(ctx: Context, h: Housing, w: Work, s: real)
    ensures ApplyRules(ctx, WallInsulationRules(h), w, s) ==
            if w.description == WallInsulation && h.wallInsulation == "no" then s + Bonus(ctx, ThermalInsulation) else s
    ensures ApplyRules(ctx, RoofInsulationRules(h), w, s) ==
            if w.description == RoofInsulation && h.roofInsulation == "no" then s + Bonus(ctx, ThermalInsulation) else s
    ensures ApplyRules(ctx, FloorInsulationRules(h), w, s) ==
            if w.description == FloorInsulation && h.floorInsulation == "no" then s + Bonus(ctx, ThermalInsulation) else s
  {
    ApplyRulesOptional(ctx, WallInsulationRules(h), w, s);
    ApplyRulesOptional(ctx, RoofInsulationRules(h), w, s);
    ApplyRulesOptional(ctx, FloorInsulationRules(h), w, s);
  }

  /** The housing pass on one row: its six blocks applied in order. */
  lemma HousingSteps(ctx: Context, h: Housing, w: Work, s: real)
    ensures ApplyRules(ctx, HousingRules(h), w, s) ==
            var s1 := ApplyRules(ctx, HeatingRules(h), w, s);
            var s2 := ApplyRules(ctx, ThermostatRules(h), w, s1);
            var s3 := ApplyRules(ctx, TemperatureRules(h), w, s2);
            var s4 := ApplyRules(ctx, WallInsulationRules(h), w, s3);
            var s5 := ApplyRules(ctx, RoofInsulationRules(h), w, s4);
            ApplyRules(ctx, FloorInsulationRules(h), w, s5)
  {
    var a, b, c := HeatingRules(h), ThermostatRules(h), TemperatureRules(h);
    var d, e, f := WallInsulationRules(h), RoofInsulationRules(h), FloorInsulationRules(h);
    ApplyRulesAppend(ctx, a + b + c + d + e, f, w, s);
    ApplyRulesAppend(ctx, a + b + c + d, e, w, s);
    ApplyRulesAppend(ctx, a + b + c, d, w, s);
    ApplyRulesAppend(ctx, a + b, c, w, s);
    ApplyRulesAppend(ctx, a, b, w, s);
  }

  /** The descriptions the housing pass can touch. */
  const HousingDescriptions := {HeatPump, Thermostat, WallInsulation, RoofInsulation, FloorInsulation}

  /** The housing pass leaves rows with any other description as they are. */
  lemma HousingLeavesOthers(ctx: Context, h: Housing, w: Work, s: real)
    requires w.description !in HousingDescriptions
    ensures ApplyRules(ctx, HousingRules(h), w, s) == s
  {
    HousingSteps(ctx, h, w, s);
    HeatingBlock(ctx, h, w, s);
    ThermostatBlock(ctx, h, w, s);
    TemperatureBlock(ctx, h, w, s);
    InsulationBlocks(ctx, h, w, s);
  }

  /**
   * A "Heat pump" row scores exactly 0 after the housing pass when the
   * dwelling already has a heat pump, and gains the sustainability bonus
   * otherwise.
   */
  lemma HousingHeatPump(ctx: Context, h: Housing, w: Work, s: real)
    requires w.description == HeatPump
    ensures ApplyRules(ctx, HousingRules(h), w, s) ==
            if h.heatingType == "heat_pump" then 0.0 else s + Bonus(ctx, Sustainability)
  {
    HousingSteps(ctx, h, w, s);
    HeatingBlock(ctx, h, w, s);
    var s1 := ApplyRules(ctx, HeatingRules(h), w, s);
    ThermostatBlock(ctx, h, w, s1);
    TemperatureBlock(ctx, h, w, s1);
    InsulationBlocks(ctx, h, w, s1);
  }

  /**
   * A "Programmable Thermostat" row is zeroed when the dwelling has one,
   * yet a temperature below 18 still adds the energy-savings bonus after
   * that.
   */
  lemma HousingThermostat(ctx: Context, h: Housing, w: Work, s: real)
    requires w.description == Thermostat
    ensures ApplyRules(ctx, HousingRules(h), w, s) ==
            (if h.programmableThermostat == "no" then s + Bonus(ctx, EnergySavings) else 0.0)
            + (if h.averageTemperature == "<18" then Bonus(ctx, EnergySavings) else 0.0)
  {
    HousingSteps(ctx, h, w, s);
    HeatingBlock(ctx, h, w, s);
    ThermostatBlock(ctx, h, w, s);
    var s2 := ApplyRules(ctx, ThermostatRules(h), w, s);
    TemperatureBlock(ctx, h, w, s2);
    InsulationBlocks(ctx, h, w, ApplyRules(ctx, TemperatureRules(h), w, s2));
  }

  /**
   * The insulation rows after the housing pass: below 18 degrees the wall
   * and the floor gain the comfort bonus and the roof the thermal-insulation
   * bonus; each also gains the thermal-insulation bonus when its part of the
   * dwelling is not insulated.
   */
  lemma HousingInsulation(ctx: Context, h: Housing, w: Work, s: real)
    requires w.description in {WallInsulation, RoofInsulation, FloorInsulation}
    ensures ApplyRules(ctx, HousingRules(h), w, s) ==
            s
            + (if h.averageTemperature != "<18" then 0.0
               else if w.description == RoofInsulation then Bonus(ctx, ThermalInsulation)
               else Bonus(ctx, Comfort))
            + (if (w.description == WallInsulation && h.wallInsulation == "no")
                  || (w.description == RoofInsulation && h.roofInsulation == "no")
                  || (w.description == FloorInsulation && h.floorInsulation == "no")
               then Bonus(ctx, ThermalInsulation) else 0.0)
  {
    HousingSteps(ctx, h, w, s);
    HeatingBlock(ctx, h, w, s);
    ThermostatBlock(ctx, h, w, s);
    TemperatureBlock(ctx, h, w, s);
    var s3 := ApplyRules(ctx, TemperatureRules(h), w, s);
    InsulationBlocks(ctx, h, w, s3);
    var s4 := ApplyRules(ctx, WallInsulationRules(h), w, s3);
    InsulationBlocks(ctx, h, w, s4);
    var s5 := ApplyRules(ctx, RoofInsulationRules(h), w, s4);
    InsulationBlocks(ctx, h, w, s5);
  }

  // ----------------------------------------------------------------- budget

  function AffordabilityRules(b: BudgetData): seq<Rule>
  {
    if b.totalBudget < b.householdIncome then [Rule(GrantAbove(b.totalBudget), Scale(0.8))] else []
  }

  function PropertyRules(b: BudgetData): seq<Rule>
  {
    if b.propertyType == "house" then [Rule(OfType([Roofing, Walls, Floors]), Scale(1.1))]
    else if b.propertyType == "apartment" then [Rule(OfType([Roofing]), Scale(0.9))]
    else []
  }

  function RenovationRules(b: BudgetData): seq<Rule>
  {
    if b.renovationMethod == "professional" then [Rule(OfType([Heating, Joinery]), Scale(1.1))]
    else if b.renovationMethod == "do_it_yourself" then [Rule(OfType([Heating]), Scale(0.9))]
    else []
  }

  /** `_apply_budget_adjustments`: affordability, property type, then renovation method. */
  function BudgetRules(b: BudgetData): seq<Rule>
  {
    AffordabilityRules(b) + PropertyRules(b) + RenovationRules(b)
  }

  /** 0.8 for a work whose grant exceeds a budget that is below the household income. */
  function AffordabilityFactor(b: BudgetData, w: Work): real
  {
    if b.totalBudget < b.householdIncome && w.grant > b.totalBudget as real then 0.8 else 1.0
  }

  /** 1.1 for roofing, walls and floors in a house; 0.9 for roofing in an apartment. */
  function PropertyFactor(b: BudgetData, w: Work): real
  {
    if b.propertyType == "house" && w.kind in {Roofing, Walls, Floors} then 1.1
    else if b.propertyType == "apartment" && w.kind == Roofing then 0.9
    else 1.0
  }

  /** 1.1 for heating and joinery done by a professional; 0.9 for heating done by oneself. */
  function RenovationFactor(b: BudgetData, w: Work): real
  {
    if b.renovationMethod == "professional" && w.kind in {Heating, Joinery} then 1.1
    else if b.renovationMethod == "do_it_yourself" && w.kind == Heating then 0.9
    else 1.0
  }

  /** The factor the budget pass multiplies a row's score by: the product of the three rules' factors. */
  function BudgetFactor(b: BudgetData, w: Work): (f: real)
    ensures f > 0.0
  {
    var a, p, r := AffordabilityFactor(b, w), PropertyFactor(b, w), RenovationFactor(b, w);
    assert a > 0.0 && p > 0.0 && r > 0.0;
    assert a * p > 0.0;
    a * p * r
  }

  lemma BudgetBlockFactors(b: BudgetData, w: Work)
    ensures Scaling(AffordabilityRules(b)) && ScaleProduct(AffordabilityRules(b), w) == AffordabilityFactor(b, w)
    ensures Scaling(PropertyRules(b)) && ScaleProduct(PropertyRules(b), w) == PropertyFactor(b, w)
    ensures Scaling(RenovationRules(b)) && ScaleProduct(RenovationRules(b), w) == RenovationFactor(b, w)
  {
    assert AffordabilityRules(b) != [] ==> AffordabilityRules(b)[..0] == [];
    assert PropertyRules(b) != [] ==> PropertyRules(b)[..0] == [];
    assert RenovationRules(b) != [] ==> RenovationRules(b)[..0] == [];
  }

  /** The budget factor is the product of the factors the budget rules select. */
  lemma BudgetProduct(b: BudgetData, w: Work)
    ensures Scaling(BudgetRules(b)) && ScaleProduct(BudgetRules(b), w) == BudgetFactor(b, w)
  {
    var a, p, m := AffordabilityRules(b), PropertyRules(b), RenovationRules(b);
    BudgetBlockFactors(b, w);
    ScaleProductAppend(a, p, w);
    ScaleProductAppend(a + p, m, w);
  }

  /** The budget pass multiplies every score by its budget factor. */
  lemma BudgetScales(ctx: Context, b: BudgetData, w: Work, s: real)
    ensures ApplyRules(ctx, BudgetRules(b), w, s) == s * BudgetFactor(b, w)
  {
    BudgetProduct(b, w);
    ApplyRulesScalesBy(ctx, BudgetRules(b), w, s, BudgetFactor(b, w));
  }

  /** Both positive, both zero, or both negative. */
  predicate SameSign(r: real, s: real)
  {
    (r > 0.0 <==> s > 0.0) && (r == 0.0 <==> s == 0.0) && (r < 0.0 <==> s < 0.0)
  }

  lemma PositiveFactorKeepsSign(r: real, s: real, f: real)
    requires f > 0.0 && r == s * f
    ensures SameSign(r, s)
  {
    if s > 0.0 {
      assert s * f > 0.0;
    } else if s < 0.0 {
      assert s * f < 0.0;
    }
  }

  /** The budget pass keeps the sign of every score: positive stays positive, zero stays zero. */
  lemma BudgetPreservesSign(ctx: Context, b: BudgetData, w: Work, s: real)
    ensures SameSign(ApplyRules(ctx, BudgetRules(b), w, s), s)
  {
    var r, f := ApplyRules(ctx, BudgetRules(b), w, s), BudgetFactor(b, w);
    BudgetScales(ctx, b, w, s);
    PositiveFactorKeepsSign(r, s, f);
  }

  /** Rows of other types whose grant draws no affordability penalty keep their score. */
  lemma BudgetLeavesOthers(ctx: Context, b: BudgetData, w: Work, s: real)
    requires w.kind !in {Roofing, Walls, Floors, Heating, Joinery}
    requires !(b.totalBudget < b.householdIncome && w.grant > b.totalBudget as real)
    ensures ApplyRules(ctx, BudgetRules(b), w, s) == s
  {
    assert AffordabilityFactor(b, w) == 1.0 && PropertyFactor(b, w) == 1.0 && RenovationFactor(b, w) == 1.0;
    assert BudgetFactor(b, w) == 1.0;
    BudgetScales(ctx, b, w, s);
  }

  // -------------------------------------------------------------- technical

  function SolarPanelRules(t: TechnicalData): seq<Rule>
  {
    if t.hasSolarPanels == "yes" then [Rule(Described(Photovoltaic), AddBonus(RenewableEnergy))] else []
  }

  function WaterHeaterRules(t: TechnicalData): seq<Rule>
  {
    if t.hasWaterHeater == "yes" then [Rule(Described(SolarWaterHeater), AddBonus(Sustainability))] else []
  }

  function BoilerRules(t: TechnicalData): seq<Rule>
  {
    if t.boilerType != "heat_pump" then [Rule(DescribedAs(HeatPump, HotWater), AddBonus(Sustainability))] else []
  }

  function VentilationRules(t: TechnicalData): seq<Rule>
  {
    if t.ventilationType !in ["mechanical", "double_flow"] then [Rule(Described(Ventilation), AddBonus(EnergySavings))] else []
  }

  /** `_apply_technical_adjustments`: solar panels, water heater, boiler, then ventilation. */
  function TechnicalRules(t: TechnicalData): (rules: seq<Rule>)
    ensures Additive(rules)
  {
    SolarPanelRules(t) + WaterHeaterRules(t) + BoilerRules(t) + VentilationRules(t)
  }

  lemma TechnicalBlocks(ctx: Context, t: TechnicalData, w: Work, s: real)
    ensures ApplyRules(ctx, SolarPanelRules(t), w, s) ==
            if w.description == Photovoltaic && t.hasSolarPanels == "yes" then s + Bonus(ctx, RenewableEnergy) else s
    ensures ApplyRules(ctx, WaterHeaterRules(t), w, s) ==
            if w.description == SolarWaterHeater && t.hasWaterHeater == "yes" then s + Bonus(ctx, Sustainability) else s
    ensures ApplyRules(ctx, BoilerRules(t), w, s) ==
            if w.description == HeatPump && w.kind == HotWater && t.boilerType != "heat_pump"
            then s + Bonus(ctx, Sustainability) else s
    ensures ApplyRules(ctx, VentilationRules(t), w, s) ==
            if w.description == Ventilation && t.ventilationType !in ["mechanical", "double_flow"]
            then s + Bonus(ctx, EnergySavings) else s
  {
    ApplyRulesOptional(ctx, SolarPanelRules(t), w, s);
    ApplyRulesOptional(ctx, WaterHeaterRules(t), w, s);
    ApplyRulesOptional(ctx, BoilerRules(t), w, s);
    ApplyRulesOptional(ctx, VentilationRules(t), w, s);
  }

  /** The technical pass on one row: its four blocks applied in order. */
  lemma TechnicalSteps(ctx: Context, t: TechnicalData, w: Work, s: real)
    ensures ApplyRules(ctx, TechnicalRules(t), w, s) ==
            var s1 := ApplyRules(ctx, SolarPanelRules(t), w, s);
            var s2 := ApplyRules(ctx, WaterHeaterRules(t), w, s1);
            var s3 := ApplyRules(ctx, BoilerRules(t), w, s2);
            ApplyRules(ctx, VentilationRules(t), w, s3)
  {
    var a, b, c, d := SolarPanelRules(t), WaterHeaterRules(t), BoilerRules(t), VentilationRules(t);
    ApplyRulesAppend(ctx, a + b + c, d, w, s);
    ApplyRulesAppend(ctx, a + b, c, w, s);
    ApplyRulesAppend(ctx, a, b, w, s);
  }

  /** The technical pass only adds non-negative bonuses. */
  lemma TechnicalOnlyAdds(ctx: Context, t: TechnicalData, w: Work, s: real)
    requires NonNegative(ctx)
    ensures ApplyRules(ctx, TechnicalRules(t), w, s) >= s
  {
    ApplyRulesAdditive(ctx, TechnicalRules(t), w, s);
  }

  /**
   * Rows of other descriptions keep their score, and so does a "Heat pump"
   * row whose type is not "Hot water": the boiler rule matches on both.
   */
  lemma TechnicalLeavesOthers(ctx: Context, t: TechnicalData, w: Work, s: real)
    requires w.description !in {Photovoltaic, SolarWaterHeater, Ventilation}
    requires w.description == HeatPump ==> w.kind != HotWater
    ensures ApplyRules(ctx, TechnicalRules(t), w, s) == s
  {
    TechnicalSteps(ctx, t, w, s);
    TechnicalBlocks(ctx, t, w, s);
  }

  /** A "Heat pump" row of type "Hot water" gains the sustainability bonus unless the boiler is a heat pump. */
  lemma TechnicalHeatPump(ctx: Context, t: TechnicalData, w: Work, s: real)
    requires w.description == HeatPump && w.kind == HotWater
    ensures ApplyRules(ctx, TechnicalRules(t), w, s) ==
            s + (if t.boilerType != "heat_pump" then Bonus(ctx, Sustainability) else 0.0)
  {
    TechnicalSteps(ctx, t, w, s);
    TechnicalBlocks(ctx, t, w, s);
    TechnicalBlocks(ctx, t, w, ApplyRules(ctx, BoilerRules(t), w, s));
  }
}
