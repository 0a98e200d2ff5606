/** `_get_profile_factors`: the criterion multipliers of each user profile. */
module Profiles {
  import opened Dicts
  import opened Domain

  const KnownProfiles := {"Eco-friendly", "Economy", "Valuation", "Comfort"}

  /** The factor table of a profile; an unknown profile yields the empty table, not an error. */
  function ProfileFactors(profile: string): (r: Dict<real>)
    ensures forall i :: 0 <= i < |r| ==> r[i].1 > 1.0
    ensures r == [] <==> profile !in KnownProfiles
  {
    if profile == "Eco-friendly" then
      [(Sustainability, 1.2), (RenewableEnergy, 1.2), (ThermalInsulation, 1.1)]
    else if profile == "Economy" then
      [(EnergySavings, 1.2), (ThermalInsulation, 1.1), (Modernization, 1.1)]
    else if profile == "Valuation" then
      [(PropertyValue, 1.3), (Modernization, 1.2)]
    else if profile == "Comfort" then
      [(Comfort, 1.3), (ThermalInsulation, 1.2), (Modernization, 1.1)]
    else
      []
  }

  /** `profile_factors.get(criterion, 1)`: never below the neutral 1, and exactly 1 for an unknown profile. */
  lemma FactorAtLeastOne(profile: string, criterion: string)
    ensures Get(ProfileFactors(profile), criterion, 1.0) >= 1.0
    ensures profile !in KnownProfiles ==> Get(ProfileFactors(profile), criterion, 1.0) == 1.0
  {
    var f := ProfileFactors(profile);
    if i :| 0 <= i < |f| && f[i].0 == criterion {
      assert Get(f, criterion, 1.0) == f[i].1;
    }
  }
}
