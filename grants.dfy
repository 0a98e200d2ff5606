/**
 * `_calculate_eligible_prime` and the surfaces it needs: for each ranked
 * work, the grant the household can claim, capped by a share of the cost
 * that depends on the income tier.
 */
module Grants {
  import opened Wrappers
  import opened Domain
  import opened Income
  import opened Ranking

  /**
   * The transcendental functions of the geometry: a square root and
   * tan(37.5 degrees), the pitch of a sloped roof.
   */
  datatype Geometry = Geometry(sqrt: real -> real, tanPitch: real)

  /** `sqrt` is a square root on the non-negative reals and the pitch is not negative. */
  ghost predicate Sound(g: Geometry)
  {
    g.tanPitch >= 0.0 &&
    forall x :: x >= 0.0 ==> g.sqrt(x) >= 0.0 && g.sqrt(x) * g.sqrt(x) == x
  }

  /** Share of the cost a grant may cover: 0.7 for R1 and R2, 0.5 for R3 and R4, nothing otherwise. */
  function Ceiling(category: string): real
  {
    if category == "R1" || category == "R2" then 0.7
    else if category == "R3" || category == "R4" then 0.5
    else 0.0
  }

  /** The tiers with a multiplier are exactly those with a positive ceiling. */
  lemma CeilingMatchesTiers(category: string)
    ensures Ceiling(category) > 0.0 <==> category in Multipliers
    ensures Ceiling(category) <= 0.7
    ensures category == "R1" || category == "R2" ==> Ceiling(category) == 0.7
    ensures category == "R3" || category == "R4" ==> Ceiling(category) == 0.5
    ensures category !in Multipliers ==> Ceiling(category) == 0.0
  {
  }

  /**
   * `_calculate_wall_surface`: the perimeter of a square floor, times a
   * 2.5 m wall height, times the number of floors.
   */
  function WallSurface(surface: int, floors: int, g: Geometry): (r: Result<real, Error>)
    ensures r.Failure? <==> surface < 0
    ensures r.Failure? ==> r.error == MathDomain(surface)
    ensures r.Success? ==> r.value == g.sqrt(surface as real) * 4.0 * 2.5 * floors as real
  {
    if surface < 0 then Failure(MathDomain(surface))
    else Success(g.sqrt(surface as real) * 4.0 * 2.5 * floors as real)
  }

  /** The wall surface is linear in the number of floors. */
  lemma WallSurfaceLinear(surface: int, a: int, b: int, g: Geometry)
    requires surface >= 0
    ensures WallSurface(surface, a + b, g).value == WallSurface(surface, a, g).value + WallSurface(surface, b, g).value
    ensures WallSurface(surface, a, g).value == a as real * WallSurface(surface, 1, g).value
  {
    var perimeter := g.sqrt(surface as real) * 4.0 * 2.5;
    assert WallSurface(surface, a + b, g).value == perimeter * (a + b) as real;
    assert perimeter * (a + b) as real == perimeter * a as real + perimeter * b as real;
  }

  /** One slope over a square floor of side `side`, rising at the roof pitch over the whole side. */
  function SinglePitchArea(g: Geometry, side: real): real
  {
    var height := side * g.tanPitch;
    side * g.sqrt(height * height + side * side)
  }

  /** Two slopes, each rising at the roof pitch over half the side. */
  function DoublePitchArea(g: Geometry, side: real): real
  {
    var height := (side / 2.0) * g.tanPitch;
    2.0 * (g.sqrt(height * height + side * side) * side)
  }

  /**
   * `_calculate_roof_surface`. The square root of the floor surface is taken
   * first, so a negative surface fails whatever the roof type; then a flat
   * roof covers the floor surface, a single- or double-pitched roof the
   * sloped area, and any other roof type is an error.
   */
  function RoofSurface(surface: int, roofType: string, g: Geometry): (r: Result<real, Error>)
    ensures r.Failure? <==> surface < 0 || roofType !in {"flat", "single", "double"}
    ensures surface < 0 ==> r == Failure(MathDomain(surface))
    ensures surface >= 0 && roofType !in {"flat", "single", "double"} ==> r == Failure(InvalidRoofType(roofType))
    ensures surface >= 0 && roofType == "flat" ==> r == Success(surface as real)
  {
    if surface < 0 then Failure(MathDomain(surface))
    else
      var side := g.sqrt(surface as real);
      if roofType == "flat" then Success(surface as real)
      else if roofType == "single" then Success(SinglePitchArea(g, side))
      else if roofType == "double" then Success(DoublePitchArea(g, side))
      else Failure(InvalidRoofType(roofType))
  }

  lemma SqrtOf(g: Geometry, x: real)
    requires Sound(g) && x >= 0.0
    ensures g.sqrt(x) >= 0.0 && g.sqrt(x) * g.sqrt(x) == x
  {
  }

  /** Between non-negative reals, squaring keeps a strict order. */
  lemma SquareStrictlyMonotone(a: real, b: real)
    requires a >= 0.0
    ensures a < b ==> a * a < b * b
  {
    if a < b {
      var aa, ab, bb := a * a, a * b, b * b;
      assert aa <= ab;
      assert ab < bb;
    }
  }

  /** The square root of anything at least `y*y` is at least `y`. */
  lemma SqrtAtLeast(g: Geometry, z: real, y: real)
    requires Sound(g) && y >= 0.0 && z >= y * y
    ensures g.sqrt(z) >= y
  {
    SqrtOf(g, z);
    SquareStrictlyMonotone(g.sqrt(z), y);
  }

  lemma ProductAtLeast(side: real, slope: real)
    requires side >= 0.0 && slope >= side
    ensures side * slope >= side * side && slope * side >= side * side && side * side >= 0.0
  {
  }

  /** A single-pitched roof over a square floor of surface `x` covers at least the floor. */
  lemma SinglePitchCovers(g: Geometry, x: real)
    requires Sound(g) && x >= 0.0
    ensures SinglePitchArea(g, g.sqrt(x)) >= x
  {
    SqrtOf(g, x);
    assert (g.sqrt(x) * g.tanPitch) * (g.sqrt(x) * g.tanPitch) >= 0.0;
    SqrtAtLeast(g, (g.sqrt(x) * g.tanPitch) * (g.sqrt(x) * g.tanPitch) + g.sqrt(x) * g.sqrt(x), g.sqrt(x));
    ProductAtLeast(g.sqrt(x), g.sqrt((g.sqrt(x) * g.tanPitch) * (g.sqrt(x) * g.tanPitch) + g.sqrt(x) * g.sqrt(x)));
  }

  /** A double-pitched roof over a square floor of surface `x` covers at least the floor. */
  lemma DoublePitchCovers(g: Geometry, x: real)
    requires Sound(g) && x >= 0.0
    ensures DoublePitchArea(g, g.sqrt(x)) >= x
  {
    SqrtOf(g, x);
    assert ((g.sqrt(x) / 2.0) * g.tanPitch) * ((g.sqrt(x) / 2.0) * g.tanPitch) >= 0.0;
    SqrtAtLeast(g, ((g.sqrt(x) / 2.0) * g.tanPitch) * ((g.sqrt(x) / 2.0) * g.tanPitch) + g.sqrt(x) * g.sqrt(x), g.sqrt(x));
    ProductAtLeast(g.sqrt(x), g.sqrt(((g.sqrt(x) / 2.0) * g.tanPitch) * ((g.sqrt(x) / 2.0) * g.tanPitch) + g.sqrt(x) * g.sqrt(x)));
  }

  /** With a true square root, a pitched roof is never smaller than the floor it covers. */
  lemma RoofCoversFloor(surface: int, roofType: string, g: Geometry)
    requires Sound(g) && surface >= 0 && roofType in {"flat", "single", "double"}
    ensures RoofSurface(surface, roofType, g).value >= surface as real
  {
    if roofType == "single" {
      SinglePitchCovers(g, surface as real);
    } else if roofType == "double" {
      DoublePitchCovers(g, surface as real);
    }
  }

  /** The three surfaces a grant can be computed on. */
  datatype Surfaces = Surfaces(floor: real, wall: real, roof: real)

  /** Wall surface first, then roof surface, as the source computes them. */
  function SurfacesOf(h: Housing, floors: int, g: Geometry): (r: Result<Surfaces, Error>)
    ensures r.Failure? <==> h.surface < 0 || h.roofType !in {"flat", "single", "double"}
    ensures h.surface < 0 ==> r == Failure(MathDomain(h.surface))
    ensures h.surface >= 0 && h.roofType !in {"flat", "single", "double"} ==> r == Failure(InvalidRoofType(h.roofType))
    ensures r.Success? ==>
              r.value.floor == h.surface as real &&
              r.value.wall == WallSurface(h.surface, floors, g).value &&
              r.value.roof == RoofSurface(h.surface, h.roofType, g).value
  {
    var wall :- WallSurface(h.surface, floors, g);
    var roof :- RoofSurface(h.surface, h.roofType, g);
    Success(Surfaces(h.surface as real, wall, roof))
  }

  /** Walls are priced on the wall surface, roofing on the roof surface, everything else on the floor surface. */
  function SurfaceFor(s: Surfaces, w: Work): (r: real)
    ensures w.kind == Walls ==> r == s.wall
    ensures w.kind == Roofing ==> r == s.roof
    ensures w.kind != Walls && w.kind != Roofing ==> r == s.floor
  {
    if w.kind == Walls then s.wall else if w.kind == Roofing then s.roof else s.floor
  }

  /** The grant before the cap: the estimate times the multiplier, per unit of surface when so priced. */
  function RawGrant(w: Work, surface: real, multiplier: int): real
  {
    w.grant * multiplier as real * (if w.grantBySurface then surface else 1.0)
  }

  /** The cap: the ceiling's share of the cost, per unit of surface when so priced. */
  function GrantCap(w: Work, surface: real, ceiling: real): real
  {
    w.cost * (if w.costBySurface then surface else 1.0) * ceiling
  }

  /**
   * `prime_eligible`, branch by branch: the raw grant, then the cap, then
   * Python's `min(prime, prime_max)`, which keeps the first argument unless
   * the second is smaller.
   */
  function EligibleGrant(w: Work, surface: real, multiplier: int, ceiling: real): (r: real)
    ensures r <= RawGrant(w, surface, multiplier) && r <= GrantCap(w, surface, ceiling)
    ensures r == RawGrant(w, surface, multiplier) || r == GrantCap(w, surface, ceiling)
  {
    var prime := w.grant * multiplier as real;
    var primeMax := if w.costBySurface then (w.cost * surface) * ceiling else w.cost * ceiling;
    var prime := if w.grantBySurface then prime * surface else prime;
    if primeMax < prime then primeMax else prime
  }

  /** A household outside every tier is granted nothing, whatever the work. */
  lemma NotApplicableGrantsNothing(w: Work, surface: real)
    ensures EligibleGrant(w, surface, NotApplicable.multiplier, Ceiling(NotApplicable.category)) == 0.0
  {
    assert RawGrant(w, surface, 0) == 0.0;
    assert GrantCap(w, surface, 0.0) == 0.0;
  }

  /** With non-negative estimates, surface and multiplier, the grant is not negative. */
  lemma GrantNonNegative(w: Work, surface: real, multiplier: int, ceiling: real)
    requires w.grant >= 0.0 && w.cost >= 0.0 && surface >= 0.0 && multiplier >= 0 && ceiling >= 0.0
    ensures EligibleGrant(w, surface, multiplier, ceiling) >= 0.0
  {
    var a := w.grant * multiplier as real;
    assert a >= 0.0;
    var c := w.cost * (if w.costBySurface then surface else 1.0);
    assert c >= 0.0;
    assert RawGrant(w, surface, multiplier) == a * (if w.grantBySurface then surface else 1.0) >= 0.0;
    assert GrantCap(w, surface, ceiling) == c * ceiling >= 0.0;
  }

  /** A ranked work with its eligible grant: the `Eligible Grant` column. */
  datatype Ranked = Ranked(work: Work, score: real, eligibleGrant: real)

  /** The eligible grant of one work for a household of tier `tier`. */
  function GrantFor(s: Surfaces, tier: Tier, w: Work): real
  {
    EligibleGrant(w, SurfaceFor(s, w), tier.multiplier, Ceiling(tier.category))
  }

  /**
   * `df['Eligible Grant'] = df.apply(prime_eligible, axis=1)`: the rows keep
   * their order, work and score and gain their grant. The surfaces are
   * computed first, so a bad surface or roof type fails even with no rows.
   */
  function EligibleGrants(rows: seq<Row>, h: Housing, floors: int, tier: Tier, g: Geometry): (r: Result<seq<Ranked>, Error>)
    ensures r.Failure? <==> h.surface < 0 || h.roofType !in {"flat", "single", "double"}
    ensures r.Failure? ==> r.error == SurfacesOf(h, floors, g).error
    ensures r.Success? ==>
              |r.value| == |rows| &&
              forall i :: 0 <= i < |rows| ==>
                r.value[i].work == rows[i].work && r.value[i].score == rows[i].score &&
                r.value[i].eligibleGrant == GrantFor(SurfacesOf(h, floors, g).value, tier, rows[i].work)
  {
    var s :- SurfacesOf(h, floors, g);
    Success(seq(|rows|, i requires 0 <= i < |rows| => Ranked(rows[i].work, rows[i].score, GrantFor(s, tier, rows[i].work))))
  }

  /** Every granted amount is within its cap, and nothing is granted outside the tiers. */
  lemma GrantsWithinCap(rows: seq<Row>, h: Housing, floors: int, tier: Tier, g: Geometry)
    requires EligibleGrants(rows, h, floors, tier, g).Success?
    ensures var r := EligibleGrants(rows, h, floors, tier, g).value;
            var s := SurfacesOf(h, floors, g).value;
            forall i :: 0 <= i < |r| ==>
              r[i].eligibleGrant <= GrantCap(r[i].work, SurfaceFor(s, r[i].work), Ceiling(tier.category))
    ensures tier == NotApplicable ==>
              forall x :: x in EligibleGrants(rows, h, floors, tier, g).value ==> x.eligibleGrant == 0.0
  {
    var r := EligibleGrants(rows, h, floors, tier, g).value;
    var s := SurfacesOf(h, floors, g).value;
    if tier == NotApplicable {
      forall x | x in r ensures x.eligibleGrant == 0.0 {
        var i :| 0 <= i < |r| && r[i] == x;
        NotApplicableGrantsNothing(x.work, SurfaceFor(s, x.work));
      }
    }
  }
}
