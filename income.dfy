/** `_calculate_income_category`: the income tier and its grant multiplier. */
module Income {
  import opened Wrappers
  import opened Dicts
  import opened Domain

  datatype Tier = Tier(category: string, multiplier: int)

  /** The fallback when the adjusted income is above every threshold. */
  const NotApplicable := Tier("Not applicable", 0)

  const ChildAllowance := 5000

  const Multipliers: map<string, int> := map["R1" := 6, "R2" := 4, "R3" := 3, "R4" := 2]

  /** Household income less 5000 per child; no floor at zero. */
  function AdjustedIncome(income: int, children: int): int
  {
    income - ChildAllowance * children
  }

  /** Index of the first threshold, in table order, that the income does not exceed. */
  function FirstWithin(thresholds: seq<(string, int)>, income: int): (r: Option<nat>)
    ensures r.Some? ==> r.value < |thresholds| && income <= thresholds[r.value].1
    ensures r.Some? ==> forall j :: 0 <= j < r.value ==> income > thresholds[j].1
    ensures r.None? ==> forall j :: 0 <= j < |thresholds| ==> income > thresholds[j].1
  {
    if thresholds == [] then None
    else if income <= thresholds[0].1 then Some(0)
    else
      match FirstWithin(thresholds[1..], income)
      case None => None
      case Some(k) => Some(k + 1)
  }

  /** Threshold `i` is the first, in table order, that `income` does not exceed. */
  predicate FirstMatchAt(thresholds: seq<(string, int)>, income: int, i: int)
  {
    0 <= i < |thresholds| && income <= thresholds[i].1 &&
    forall j :: 0 <= j < i ==> income > thresholds[j].1
  }

  /** What matching threshold `i` yields: its category and multiplier, or a KeyError. */
  function TierOf(category: string): Result<Tier, Error>
  {
    if category in Multipliers then Success(Tier(category, Multipliers[category]))
    else Failure(UnknownIncomeCategory(category))
  }

  /**
   * The category of the first threshold (in the file's order) at or above
   * the adjusted income, with its multiplier; "Not applicable" with 0 when
   * none is. A matched category outside R1..R4 has no multiplier (KeyError).
   */
  function IncomeCategory(income: int, children: int, thresholds: Dict<int>): (r: Result<Tier, Error>)
    ensures (forall j :: 0 <= j < |thresholds| ==> AdjustedIncome(income, children) > thresholds[j].1) ==>
              r == Success(NotApplicable)
    ensures forall i :: FirstMatchAt(thresholds, AdjustedIncome(income, children), i) ==>
              r == TierOf(thresholds[i].0)
    ensures r.Success? ==>
              r.value == NotApplicable ||
              (r.value.category in Multipliers && r.value.multiplier == Multipliers[r.value.category])
  {
    var adjusted := AdjustedIncome(income, children);
    match FirstWithin(thresholds, adjusted)
    case None => Success(NotApplicable)
    case Some(k) =>
      assert FirstMatchAt(thresholds, adjusted, k);
      assert forall i :: FirstMatchAt(thresholds, adjusted, i) ==> i == k;
      TierOf(thresholds[k].0)
  }

  /** A classified household has a positive multiplier exactly when it is not "Not applicable". */
  lemma MultiplierPositive(income: int, children: int, thresholds: Dict<int>)
    requires IncomeCategory(income, children, thresholds).Success?
    ensures var t := IncomeCategory(income, children, thresholds).value;
      (t.multiplier > 0 <==> t != NotApplicable) && t.multiplier in {0, 2, 3, 4, 6}
  {
  }

  /** Income 30000 with two children against thresholds 10000/25000/40000/60000 falls in R2. */
  lemma TwoChildrenExample()
    ensures IncomeCategory(30000, 2, [("R1", 10000), ("R2", 25000), ("R3", 40000), ("R4", 60000)])
            == Success(Tier("R2", 4))
  {
    var th: Dict<int> := [("R1", 10000), ("R2", 25000), ("R3", 40000), ("R4", 60000)];
    assert AdjustedIncome(30000, 2) == 20000;
    assert FirstWithin(th, 20000) == Some(1);
  }
}
