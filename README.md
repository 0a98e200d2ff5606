# Renovation work prioritisation — a verified model

This project models the prioritisation engine of a renovation-advice service,
the `PrioritizationSystem` class of `app/simulation.py`. The engine takes a
household's answers and a catalogue of renovation works. It then:

- normalises the criterion weights;
- places the household in an income tier (R1–R4 or "Not applicable") that
  carries a grant multiplier;
- scores every work as the sum, over its type's criteria, of weight × profile
  factor;
- runs three adjustment passes over the score column, in order: housing, budget
  and technical;
- drops the works whose score is not positive and sorts the rest by score,
  highest first;
- attaches to each remaining work its eligible grant. That grant is the smaller
  of the raw grant and a cost ceiling that depends on the income tier.

Modules, one per part of the engine:

| module | part of the engine |
|---|---|
| `Wrappers` | `Option` and `Result` |
| `Dicts` | Python dicts as insertion-ordered key/value sequences with distinct keys |
| `Domain` | works, project answers, errors, and the exact strings the rules match on |
| `Weights` | weight normalisation |
| `Income` | income tier |
| `Profiles` | profile factor tables |
| `Criteria` | criterion bonus and base score |
| `Rules` | column updates: a selector and an effect |
| `Adjustments` | the three passes as rule lists, block by block |
| `Ranking` | filter and sort |
| `Scoring` | the score table, a class whose `array` score column the passes update in place |
| `Grants` | surfaces and eligible grant |
| `Pipeline` | `prioritize` end to end |

Each pass is a list of rules built with the same branches, in the same order, as
the source's `if`s. `ScoreTable.Apply` performs one column update in place;
`ScoreTable.ApplyInOrder` runs a whole list. The pure function
`Rules.ApplyRules` gives a row's score after a list. Lemmas then describe each
pass in closed form, row by row.

Behaviour of the code that the model keeps as written:

- Income thresholds are scanned in the file's key order, not in ascending
  threshold order. A matched category with no multiplier raises a `KeyError`,
  which is modelled as an error.
- The photovoltaic bonus fires when the dwelling already has solar panels
  (`"yes"`), and so does the solar-water-heater bonus.
- The ventilation rule adds only the energy-savings bonus.
- An unknown profile gives an empty factor table, not an error.
- An empty weight table normalises to an empty table. Only a non-empty table
  whose values sum to 0 fails, with a division by zero.
- The sort uses pandas' default sort, which is not stable. Works of equal score
  may come out in any order.
- A negative floor surface fails in `math.sqrt`. This happens before the roof
  type is examined, so it also happens for a flat roof.

## Model

| member | source | states |
|---|---|---|
| Dicts.Get | app/simulation.py:162-163 | `dict.get`: the value stored under the key when present, the default when no entry has that key |
| Weights.TotalDivided | app/simulation.py:40-41 | dividing every value by the total divides their sum by the total |
| Weights.Total | app/simulation.py:40 | definition, no contract: `sum(raw_weights.values())`, the values added in table order; `TotalDivided`, `ValueAtMostTotal` and `TotalNonNegative` state its properties |
| Weights.NormalizeWeights | app/simulation.py:40-41 | fails (division by zero) exactly when the table is non-empty and sums to 0; otherwise every weight is its raw value over the total, and a non-empty result sums to 1 |
| Weights.ValueAtMostTotal | app/simulation.py:40 | with non-negative values, no single value exceeds the sum |
| Weights.TotalNonNegative | app/simulation.py:40 | non-negative values have a non-negative sum |
| Weights.NormalizedLookup | app/simulation.py:41 | looking a criterion up in the normalised table gives its raw weight over the total, and 0 when it is absent |
| Weights.NormalizedInUnitInterval | app/simulation.py:40-41 | non-negative raw weights normalise into [0, 1] |
| Income.FirstWithin | app/simulation.py:68-70 | the index of the first threshold, in table order, that the income does not exceed; none when every threshold is below it |
| Income.AdjustedIncome | app/simulation.py:60-62 | definition, no contract: the household income less 5000 per child, with no floor at 0 |
| Income.TierOf | app/simulation.py:67-70 | definition, no contract: a matched category with its multiplier (R1→6, R2→4, R3→3, R4→2), or the `KeyError` as an unknown-category error; `IncomeCategory` returns it for the first match |
| Income.IncomeCategory | app/simulation.py:60-72 | the adjusted income is income − 5000 × children. No threshold matched gives ("Not applicable", 0). The first match in table order gives its category with multiplier R1→6, R2→4, R3→3, R4→2, or an unknown-category error for any other name |
| Income.MultiplierPositive | app/simulation.py:67-72 | the multiplier is one of 0, 2, 3, 4, 6, and positive exactly when the tier is not "Not applicable" |
| Income.TwoChildrenExample | app/simulation.py:60-72 | income 30000 with 2 children against 10000/25000/40000/60000 is R2 with multiplier 4 |
| Profiles.ProfileFactors | app/simulation.py:98-120 | the four fixed factor tables; every factor exceeds 1; the table is empty exactly for an unknown profile |
| Profiles.FactorAtLeastOne | app/simulation.py:120 | a looked-up factor (default 1) is at least 1, and exactly 1 for an unknown profile |
| Criteria.BonusNonNegative | app/simulation.py:162-164 | with non-negative weights and factors a criterion's bonus is not negative |
| Criteria.Bonus | app/simulation.py:162-164 | definition, no contract: `weights.get(c, 0) * profile_factors.get(c, 1)`, the amount every base score term and every additive rule uses |
| Criteria.ContextNonNegative | app/simulation.py:40-41 | normalising non-negative raw weights and taking any profile's factors gives a non-negative context |
| Criteria.SumBonusesAppend | app/simulation.py:161-164 | the accumulated bonus of two criterion lists in turn is the sum of their bonuses |
| Criteria.SumBonusesPermutation | app/simulation.py:161-164 | the base score does not depend on the order in which a type's criteria are listed |
| Criteria.BaseScoreBounds | app/simulation.py:157-164 | a type with no criteria scores 0; with a non-negative context no base score is negative |
| Criteria.SumBonusesNonNegative | app/simulation.py:161-164 | with a non-negative context the accumulated bonus is not negative |
| Criteria.SumBonuses | app/simulation.py:160-164 | definition, no contract: `score_total`, accumulated over the criteria left to right from 0; `SumBonusesAppend`, `SumBonusesPermutation` and `SumBonusesNonNegative` state its properties |
| Criteria.BaseScore | app/simulation.py:157-164 | definition, no contract: `SumBonuses` over `works_criteria.get(type, [])`; `BaseScoreBounds` and `ScoreTable.ComputeBaseScores` state its properties |
| Rules.ApplyRulesAppend | app/simulation.py:170-240 | running two update lists in turn is running their concatenation |
| Rules.Selects | app/simulation.py:184-328 | definition, no contract: the four masks of the passes: description, description and type, type in a list, grant above a limit |
| Rules.ApplyRule | app/simulation.py:184-287 | definition, no contract: an unselected row keeps its score; a selected row gains a bonus or is set to 0 (the masked updates of lines 184-190) or is multiplied (the budget lambdas of lines 258-287) |
| Rules.ApplyRules | app/simulation.py:180-328 | definition, no contract: a row's score after a list of updates, first to last; the other `ApplyRules*` lemmas state its properties |
| Rules.ApplyRulesUntouched | app/simulation.py:184-185 | a row no update selects keeps its score |
| Rules.ApplyRulesAdditive | app/simulation.py:302-328 | updates that only add non-negative bonuses never lower a score |
| Rules.ApplyRulesNonNegative | app/simulation.py:170-328 | bonuses, zeroing and non-negative factors keep a non-negative score non-negative |
| Rules.ApplyRulesScaling | app/simulation.py:256-287 | multiplying updates scale the score by the product of the factors that select the row |
| Rules.ScaleProductAppend | app/simulation.py:256-287 | the factor product of two update lists in turn is the product of their factor products |
| Adjustments.TemperatureRules | app/simulation.py:203-216 | below 18 degrees there are four updates, otherwise none |
| Adjustments.HeatingRules | app/simulation.py:183-190 | definition, no contract: bonus for "Heat pump" rows unless heating is "heat_pump", else zeroing; `HeatingBlock` gives its effect |
| Adjustments.ThermostatRules | app/simulation.py:193-200 | definition, no contract: bonus for the thermostat row on "no", else zeroing; `ThermostatBlock` gives its effect |
| Adjustments.WallInsulationRules | app/simulation.py:219-224 | definition, no contract: thermal-insulation bonus for the wall row on "no"; `InsulationBlocks` gives its effect |
| Adjustments.RoofInsulationRules | app/simulation.py:226-231 | definition, no contract: thermal-insulation bonus for the roof row on "no"; `InsulationBlocks` gives its effect |
| Adjustments.FloorInsulationRules | app/simulation.py:233-238 | definition, no contract: thermal-insulation bonus for the floor row on "no"; `InsulationBlocks` gives its effect |
| Adjustments.HousingRules | app/simulation.py:180-240 | definition, no contract: the six housing blocks in source order; `HousingSteps` and the `Housing*` lemmas give its effect |
| Adjustments.TemperatureBonus | app/simulation.py:204-216 | definition, no contract: the bonus of the criterion the low-temperature list pairs with a row's description, 0 for other rows; `TemperatureBlock` uses it |
| Adjustments.HeatingBlock | app/simulation.py:183-190 | a "Heat pump" row is zeroed when the dwelling has a heat pump and gains the sustainability bonus otherwise; other rows are untouched |
| Adjustments.ThermostatBlock | app/simulation.py:193-200 | a "Programmable Thermostat" row gains the energy-savings bonus when the dwelling has none and is zeroed otherwise; other rows are untouched |
| Adjustments.TemperatureBlock | app/simulation.py:203-216 | below 18 degrees the thermostat, wall, roof and floor insulation rows gain energy savings, comfort, thermal insulation and comfort respectively |
| Adjustments.InsulationBlocks | app/simulation.py:219-238 | each uninsulated part adds the thermal-insulation bonus to its own insulation row only |
| Adjustments.HousingSteps | app/simulation.py:180-240 | the housing pass is its six blocks in source order |
| Adjustments.HousingLeavesOthers | app/simulation.py:183-240 | a row whose description the housing pass does not name keeps its score |
| Adjustments.HousingHeatPump | app/simulation.py:183-190 | after the housing pass a "Heat pump" row scores exactly 0 when heating is "heat_pump", and its score plus the sustainability bonus otherwise |
| Adjustments.HousingThermostat | app/simulation.py:193-216 | a thermostat row zeroed because the dwelling has one still regains the energy-savings bonus below 18 degrees |
| Adjustments.HousingInsulation | app/simulation.py:203-238 | each insulation row's final housing score: its score plus the temperature bonus plus the thermal-insulation bonus when its part is uninsulated |
| Adjustments.BudgetFactor | app/simulation.py:256-287 | the product of the three budget factors (0.8 affordability, 1.1/0.9 property, 1.1/0.9 renovation) is positive |
| Adjustments.AffordabilityRules | app/simulation.py:257-261 | definition, no contract: × 0.8 for works whose grant exceeds a budget below the household income |
| Adjustments.PropertyRules | app/simulation.py:264-274 | definition, no contract: × 1.1 for roofing, walls and floors in a house, × 0.9 for roofing in an apartment |
| Adjustments.RenovationRules | app/simulation.py:277-287 | definition, no contract: × 1.1 for heating and joinery by a professional, × 0.9 for heating done oneself |
| Adjustments.BudgetRules | app/simulation.py:252-289 | definition, no contract: the three budget blocks in source order; `BudgetScales` gives its effect |
| Adjustments.AffordabilityFactor | app/simulation.py:257-261 | definition, no contract: the affordability block's factor for one row; `BudgetBlockFactors` ties it to the block |
| Adjustments.PropertyFactor | app/simulation.py:264-274 | definition, no contract: the property-type block's factor for one row; `BudgetBlockFactors` ties it to the block |
| Adjustments.RenovationFactor | app/simulation.py:277-287 | definition, no contract: the renovation-method block's factor for one row; `BudgetBlockFactors` ties it to the block |
| Adjustments.BudgetBlockFactors | app/simulation.py:256-287 | each budget block only scales, by its factor for the row |
| Adjustments.BudgetProduct | app/simulation.py:256-287 | the whole budget pass scales by the product of the three block factors |
| Adjustments.BudgetScales | app/simulation.py:252-289 | the budget pass multiplies every score by its row's budget factor |
| Adjustments.BudgetPreservesSign | app/simulation.py:252-289 | the budget pass keeps every score's sign: positive stays positive, zero stays zero, negative stays negative |
| Adjustments.BudgetLeavesOthers | app/simulation.py:256-287 | a row outside the budget types with no affordability penalty keeps its score |
| Adjustments.TechnicalRules | app/simulation.py:302-328 | every technical update adds a bonus |
| Adjustments.SolarPanelRules | app/simulation.py:302-307 | definition, no contract: renewable-energy bonus for the photovoltaic row on "yes"; `TechnicalBlocks` gives its effect |
| Adjustments.WaterHeaterRules | app/simulation.py:309-314 | definition, no contract: sustainability bonus for the solar water heater row on "yes"; `TechnicalBlocks` gives its effect |
| Adjustments.BoilerRules | app/simulation.py:316-321 | definition, no contract: sustainability bonus for "Heat pump" rows of type "Hot water" unless the boiler is "heat_pump"; `TechnicalBlocks` gives its effect |
| Adjustments.VentilationRules | app/simulation.py:323-328 | definition, no contract: energy-savings bonus for the ventilation row unless ventilation is mechanical or double flow; `TechnicalBlocks` gives its effect |
| Adjustments.TechnicalBlocks | app/simulation.py:302-328 | each technical block: solar panels "yes" → photovoltaic row; water heater "yes" → solar water heater row; boiler not a heat pump → "Heat pump" row of type "Hot water"; ventilation not mechanical or double flow → ventilation row (energy savings only) |
| Adjustments.TechnicalSteps | app/simulation.py:291-330 | the technical pass is its four blocks in source order |
| Adjustments.TechnicalOnlyAdds | app/simulation.py:302-328 | with a non-negative context the technical pass never lowers a score |
| Adjustments.TechnicalLeavesOthers | app/simulation.py:302-328 | rows of other descriptions, and "Heat pump" rows of a type other than "Hot water", keep their score |
| Adjustments.TechnicalHeatPump | app/simulation.py:316-321 | a "Heat pump" row of type "Hot water" gains the sustainability bonus unless the boiler is a heat pump |
| Ranking.Positive | app/simulation.py:400 | exactly the rows of strictly positive score, each as often as in the table |
| Ranking.Insert | app/simulation.py:403 | inserting into a score-sorted list keeps it sorted and adds exactly that row |
| Ranking.SortByScore | app/simulation.py:403 | the result is sorted by non-increasing score and is a permutation of the input |
| Ranking.Rank | app/simulation.py:399-403 | the result is a ranking of the table: only and all positive-score rows, as a permutation, by non-increasing score |
| Ranking.RankedRowsPositive | app/simulation.py:399-403 | every ranked row has a positive score and comes from the table |
| Ranking.PositiveRowsRanked | app/simulation.py:399-403 | every positive-score row of the table is ranked |
| Ranking.RankingsAgree | app/simulation.py:403 | any two rankings of one table hold the same rows and the same score at every position, so only equal-score ties can differ |
| Ranking.SortedScoresEqual | app/simulation.py:403 | two score-sorted permutations of each other have equal scores position by position |
| Scoring.ScoreTable.constructor | app/simulation.py:153-154 | a copy of the catalogue with a fresh score column of zeros |
| Scoring.ScoreTable.ComputeBaseScores | app/simulation.py:153-166 | every row's score is written with its type's base score (criteria default to none, weights to 0, factors to 1) |
| Scoring.ScoreTable.Apply | app/simulation.py:184-185 | one masked column update: selected rows get the effect, the others keep their score |
| Scoring.ScoreTable.ApplyInOrder | app/simulation.py:180-240 | a pass's updates in order leave each row at `ApplyRules` of its old score |
| Scoring.ScoreTable.HousingAdjustments | app/simulation.py:170-240 | the housing pass in place; "Heat pump" rows are zeroed under a heat pump and bonused otherwise; rows of other descriptions are unchanged |
| Scoring.ScoreTable.BudgetAdjustments | app/simulation.py:242-289 | the budget pass in place; no score changes sign |
| Scoring.ScoreTable.TechnicalAdjustments | app/simulation.py:291-330 | the technical pass in place; with a non-negative context no score drops; untargeted rows are unchanged |
| Grants.CeilingMatchesTiers | app/simulation.py:347-353 | the ceiling is 0.7 for R1 and R2, 0.5 for R3 and R4, and 0 for every other category; it is positive exactly for the tiers with a multiplier |
| Grants.Ceiling | app/simulation.py:347-353 | definition, no contract: `plafonds.get(category, 0)`: 0.7 for R1 and R2, 0.5 for R3 and R4, 0 otherwise |
| Grants.WallSurface | app/simulation.py:410-423 | fails exactly on a negative floor surface (square root domain); otherwise 4 × √surface × 2.5 × floors |
| Grants.WallSurfaceLinear | app/simulation.py:420-423 | the wall surface is linear in the number of floors |
| Grants.RoofSurface | app/simulation.py:122-144 | fails on a negative surface first, then on any roof type other than flat, single or double; a flat roof covers exactly the floor surface |
| Grants.SinglePitchCovers | app/simulation.py:135-138 | with a true square root and non-negative pitch, a single-pitched roof is at least the floor surface |
| Grants.SinglePitchArea | app/simulation.py:135-138 | definition, no contract: side × √(height² + side²) with height = side × tan(pitch); `SinglePitchCovers` bounds it |
| Grants.DoublePitchArea | app/simulation.py:139-142 | definition, no contract: 2 × (√(height² + side²) × side) with height = side / 2 × tan(pitch); `DoublePitchCovers` bounds it |
| Grants.DoublePitchCovers | app/simulation.py:139-142 | the same for a double-pitched roof |
| Grants.RoofCoversFloor | app/simulation.py:129-144 | with a true square root, no valid roof is smaller than the floor it covers |
| Grants.SurfacesOf | app/simulation.py:342-345 | wall surface then roof surface; fails exactly on a negative surface or an unknown roof type, with the first error raised |
| Grants.SurfaceFor | app/simulation.py:357 | walls use the wall surface, roofing the roof surface, everything else the floor surface |
| Grants.RawGrant | app/simulation.py:356-364 | definition, no contract: the grant estimate × the multiplier, × the surface when the grant is per surface; `EligibleGrant` is bounded by it |
| Grants.GrantCap | app/simulation.py:359-369 | definition, no contract: the cost, × the surface when the cost is per surface, × the ceiling; `EligibleGrant` and `GrantsWithinCap` are bounded by it |
| Grants.EligibleGrant | app/simulation.py:355-371 | the four branches and Python's `min` give the smaller of the raw grant and the cost cap, and never more than the cap |
| Grants.NotApplicableGrantsNothing | app/simulation.py:347-371 | a "Not applicable" household is granted 0 for every work |
| Grants.GrantNonNegative | app/simulation.py:355-371 | non-negative estimates, surface, multiplier and ceiling give a non-negative grant |
| Grants.GrantFor | app/simulation.py:355-373 | definition, no contract: `prime_eligible` for one row: its surface, the tier's multiplier and ceiling |
| Grants.EligibleGrants | app/simulation.py:342-374 | rows keep order, work and score and gain their grant; a bad surface or roof type fails even when there are no rows |
| Grants.GrantsWithinCap | app/simulation.py:355-373 | every attached grant is within its cap, and all are 0 for "Not applicable" |
| Pipeline.FinalScore | app/simulation.py:387-397 | definition, no contract: the base score through the housing, budget and technical passes in that order; the `Pipeline` lemmas state its properties |
| Pipeline.Setup | app/simulation.py:23-29 | the weight error comes first, then the income-category error with the category `IncomeCategory` reports; otherwise the normalised weights with the profile's factors, and the tier |
| Pipeline.Prioritize | app/simulation.py:376-408 | fails as the source raises, in its order; otherwise ranks exactly the works of positive final score by non-increasing score, each with its eligible grant |
| Pipeline.ScoreCatalogue | app/simulation.py:387-397 | the in-place table computation yields exactly `ScoredRows` |
| Pipeline.ChainedPasses | app/simulation.py:387-397 | score columns related pass by pass give the rows of `ScoredRows` |
| Pipeline.PassesKeepSign | app/simulation.py:170-330 | no update of the three passes multiplies by a negative factor |
| Pipeline.FinalScoreNonNegative | app/simulation.py:387-400 | with non-negative weights no final score is negative, so the filter drops exactly the zero scores |
| Pipeline.HeatPumpRegainsInTechnicalPass | app/simulation.py:190 | a "Hot water" heat pump zeroed because heating is a heat pump ends with the sustainability bonus when the boiler is not a heat pump (lines 316-321), and 0 otherwise |
| Pipeline.HeatPumpNotRanked | app/simulation.py:190 | any other "Heat pump" work ends at 0 under a heat-pump heating and is never ranked |
| Pipeline.ThermostatRebonused | app/simulation.py:200-216 | a thermostat the dwelling already has ends with the energy-savings bonus through the budget pass, and its final score is positive whenever that bonus is |
| Pipeline.ThermostatRanked | app/simulation.py:200-403 | such a thermostat work of the catalogue is ranked, with that final score, whenever the energy-savings bonus is positive |

## Left out

- Reading the weights, work criteria and income thresholds from JSON files.
  Their contents are the `Config` parameter.
- Loading the catalogue from PostgreSQL. It is a parameter.
- Recording the project (`insert_project`) and every `print`. They have no
  effect on the result.
- Parsing numeric fields with `int()`. The project answers are integers
  already.
- Storing the tier in the project data (`incomeCategory`, `primeMultiplier`).
  The result does not depend on it.
- `math.sqrt` and `tan(37.5°)`. They are the `Geometry` parameter. Roof and
  wall surfaces are exact only up to those functions. The roof lemmas assume a
  true square root.
- Grants.WallSurface: the square root of a non-square argument is whatever
  `Geometry` gives, not IEEE `math.sqrt`.
- Floating-point rounding. Scores, weights and grants are exact reals. A float
  score that rounds to 0 or the other side of it is not modelled.
- Ranking.Rank: does not fix the order of equal-score works, because pandas'
  default sort is not stable.
- Scoring.ScoreTable.BudgetAdjustments: its contract gives the new score as
  `ApplyRules` of the old one and its sign. The factor form
  (old score × `BudgetFactor`) is the separate lemma `Adjustments.BudgetScales`,
  because the product inside the method's quantifier is too costly for the
  solver.
- Pipeline.ThermostatRebonused: gives the final score as the bonus passed
  through the budget pass, not as bonus × `BudgetFactor`. `BudgetScales` gives
  that product.
- Python's dynamic typing: a missing answer key, a non-numeric JSON value or
  NaN is not modelled.
- The HTTP routing, authentication (JWT and bcrypt), SQL table creation,
  database configuration, request schemas and server start-up. They hold no
  prioritisation logic.
