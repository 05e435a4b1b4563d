/**
 * Per-intervention cost-benefit (getDriverValue and calculateInterventionCosts of
 * src/utils/calculations.js): unit coefficients times a municipal driver, each output
 * rounded on its own.
 */
module Costs {
  import opened Calibration

  /** n is the nearest integer to x, halves rounded up. */
  predicate RoundsTo(x: real, n: int) {
    x - 0.5 < n as real <= x + 0.5
  }

  /** Math.round: the nearest integer, halves rounded up. */
  function Round(x: real): (r: int)
    ensures RoundsTo(x, r)
  {
    (x + 0.5).Floor
  }

  /** Rounding is determined by its contract: only one integer lies in (x - 0.5, x + 0.5]. */
  lemma RoundUnique(x: real, n: int)
    requires RoundsTo(x, n)
    ensures Round(x) == n
  {
    var r := Round(x);
    assert (r - n) as real < 1.0 && (n - r) as real < 1.0;
  }

  /** Share of the municipal solid waste that is organic. */
  const OrganicShare: real := 0.35

  /** The municipal quantity an intervention's unit coefficients are multiplied by. */
  function DriverValue(driver: Driver, m: Municipality): real {
    match driver
    case Population => m.population
    case Msw => m.totalMsw
    case Organic => m.totalMsw * OrganicShare
    case AgriFirms => m.agriFirmsWithUaa
    case OtherDriver(_) => 0.0
  }

  /** The driver is the municipality's own figure for the four known drivers, 35% of the
      waste for the organic one, and 0 for any other. */
  lemma DriverValueCases(driver: Driver, m: Municipality)
    ensures driver == Population ==> DriverValue(driver, m) == m.population
    ensures driver == Msw ==> DriverValue(driver, m) == m.totalMsw
    ensures driver == Organic ==> DriverValue(driver, m) == 0.35 * m.totalMsw
    ensures driver == AgriFirms ==> DriverValue(driver, m) == m.agriFirmsWithUaa
    ensures driver.OtherDriver? ==> DriverValue(driver, m) == 0.0
  {
  }

  datatype CostBenefit = CostBenefit(
    totalCost: int,
    publicCost: int,
    privateCost: int,
    revenue: int,
    envBenefit: int,
    socBenefit: int,
    npv: int)

  const ZeroCosts: CostBenefit := CostBenefit(0, 0, 0, 0, 0, 0, 0)

  /** An agricultural-firms intervention in a municipality without such firms is inert. */
  predicate Inert(iv: Intervention, m: Municipality) {
    iv.driver == AgriFirms && m.agriFirmsWithUaa == 0.0
  }

  /** The public share of a total cost, unrounded. */
  function PublicPart(total: real, pct: real): real {
    total * (pct / 100.0)
  }

  /** The seven outputs for unit coefficients c, public share pct and driver value d, each
      rounded from its own unrounded product. */
  function ScaledCosts(c: Coefficients, pct: real, d: real): CostBenefit {
    var totalCost := c.cost * d;
    var publicCost := PublicPart(totalCost, pct);
    var privateCost := totalCost - publicCost;
    CostBenefit(
      Round(totalCost), Round(publicCost), Round(privateCost),
      Round(c.revenue * d), Round(c.envBenefit * d),
      Round(c.socBenefit * d), Round(c.npv * d))
  }

  /** Costs and benefits of one intervention (zero when inert). */
  function InterventionCosts(iv: Intervention, m: Municipality): (cb: CostBenefit)
    ensures Inert(iv, m) ==> cb == ZeroCosts
    ensures !Inert(iv, m) ==> cb == ScaledCosts(iv.coefficients, iv.publicSharePercentage, DriverValue(iv.driver, m))
  {
    var driver := DriverValue(iv.driver, m);
    if iv.driver == AgriFirms && driver == 0.0 then ZeroCosts
    else ScaledCosts(iv.coefficients, iv.publicSharePercentage, driver)
  }

  /** Every field is its own unrounded product rounded to the nearest unit: the public
      cost from the unrounded total times the share, the private cost from the unrounded
      total minus the unrounded public cost. */
  lemma ScaledCostsRounded(c: Coefficients, pct: real, d: real)
    ensures var cb := ScaledCosts(c, pct, d);
      var total := c.cost * d;
      var pub := PublicPart(total, pct);
      && RoundsTo(total, cb.totalCost)
      && RoundsTo(pub, cb.publicCost)
      && RoundsTo(total - pub, cb.privateCost)
      && RoundsTo(c.revenue * d, cb.revenue)
      && RoundsTo(c.envBenefit * d, cb.envBenefit)
      && RoundsTo(c.socBenefit * d, cb.socBenefit)
      && RoundsTo(c.npv * d, cb.npv)
  {
  }

  /** Because the three cost fields are rounded independently, the rounded public and
      private costs add up to the rounded total to within one unit. */
  lemma CostSplitWithinOne(iv: Intervention, m: Municipality)
    ensures var cb := InterventionCosts(iv, m);
            -1 <= cb.totalCost - cb.publicCost - cb.privateCost <= 1
  {
    if !Inert(iv, m) {
      ScaledSplitWithinOne(iv.coefficients, iv.publicSharePercentage, DriverValue(iv.driver, m));
    }
  }

  lemma ScaledSplitWithinOne(c: Coefficients, pct: real, d: real)
    ensures var cb := ScaledCosts(c, pct, d);
            -1 <= cb.totalCost - cb.publicCost - cb.privateCost <= 1
  {
    ScaledCostsRounded(c, pct, d);
    var total := c.cost * d;
    RoundedSplitWithinOne(total, PublicPart(total, pct), ScaledCosts(c, pct, d));
  }

  lemma RoundedSplitWithinOne(total: real, pub: real, cb: CostBenefit)
    requires RoundsTo(total, cb.totalCost) && RoundsTo(pub, cb.publicCost) && RoundsTo(total - pub, cb.privateCost)
    ensures -1 <= cb.totalCost - cb.publicCost - cb.privateCost <= 1
  {
    assert -1.5 < (cb.totalCost - cb.publicCost - cb.privateCost) as real < 1.5;
  }

  /** The split can indeed be off by one: a total of 1 shared 50/50 rounds to 1, 1 and 1. */
  lemma CostSplitCanDiffer()
    ensures var iv := Intervention(1, 50.0, Coefficients(1.0, 0.0, 0.0, 0.0, 0.0), Population, []);
            var cb := InterventionCosts(iv, Municipality(1.0, 0.0, 0.0, 0.0));
            cb.totalCost == 1 && cb.publicCost == 1 && cb.privateCost == 1
  {
    var c := Coefficients(1.0, 0.0, 0.0, 0.0, 0.0);
    ScaledCostsRounded(c, 50.0, 1.0);
    RoundUnique(1.0, 1);
    RoundUnique(0.5, 1);
  }

  /** A non-negative unit cost and driver, and a public share that is a percentage. */
  predicate CostInputsSound(iv: Intervention, m: Municipality) {
    && DriverValue(iv.driver, m) >= 0.0 && iv.coefficients.cost >= 0.0
    && 0.0 <= iv.publicSharePercentage <= 100.0
  }

  /** With sound cost inputs the three cost fields are non-negative and neither part of the
      cost exceeds the total. */
  lemma CostsNonNegative(iv: Intervention, m: Municipality)
    requires CostInputsSound(iv, m)
    ensures var cb := InterventionCosts(iv, m);
      && 0 <= cb.publicCost <= cb.totalCost
      && 0 <= cb.privateCost <= cb.totalCost
  {
    if !Inert(iv, m) {
      ScaledCostsNonNegative(iv.coefficients, iv.publicSharePercentage, DriverValue(iv.driver, m));
    }
  }

  lemma ScaledCostsNonNegative(c: Coefficients, pct: real, d: real)
    requires d >= 0.0 && c.cost >= 0.0 && 0.0 <= pct <= 100.0
    ensures var cb := ScaledCosts(c, pct, d);
      && 0 <= cb.publicCost <= cb.totalCost
      && 0 <= cb.privateCost <= cb.totalCost
  {
    var total := c.cost * d;
    ShareOfProduct(c.cost, d, pct);
    ScaledCostsRounded(c, pct, d);
    RoundedSplitBounds(total, PublicPart(total, pct), ScaledCosts(c, pct, d));
  }

  /** Independently rounded parts of a non-negative total are non-negative and do not
      exceed the rounded total. */
  lemma RoundedSplitBounds(total: real, pub: real, cb: CostBenefit)
    requires 0.0 <= pub <= total
    requires RoundsTo(total, cb.totalCost) && RoundsTo(pub, cb.publicCost) && RoundsTo(total - pub, cb.privateCost)
    ensures 0 <= cb.publicCost <= cb.totalCost && 0 <= cb.privateCost <= cb.totalCost
  {
  }

  /** With non-negative coefficients and driver, the four benefit fields are non-negative. */
  lemma BenefitsNonNegative(iv: Intervention, m: Municipality)
    requires DriverValue(iv.driver, m) >= 0.0
    requires var c := iv.coefficients;
             c.revenue >= 0.0 && c.envBenefit >= 0.0 && c.socBenefit >= 0.0 && c.npv >= 0.0
    ensures var cb := InterventionCosts(iv, m);
            cb.revenue >= 0 && cb.envBenefit >= 0 && cb.socBenefit >= 0 && cb.npv >= 0
  {
    if !Inert(iv, m) {
      var d := DriverValue(iv.driver, m);
      var c := iv.coefficients;
      MulNonNegative(c.revenue, d);
      MulNonNegative(c.envBenefit, d);
      MulNonNegative(c.socBenefit, d);
      MulNonNegative(c.npv, d);
      ScaledCostsRounded(c, iv.publicSharePercentage, d);
    }
  }

  /** A percentage in [0, 100] of a non-negative product lies between 0 and the product. */
  lemma ShareOfProduct(a: real, b: real, pct: real)
    requires a >= 0.0 && b >= 0.0 && 0.0 <= pct <= 100.0
    ensures 0.0 <= PublicPart(a * b, pct) <= a * b
  {
    MulNonNegative(a, b);
    ScaleWithin(a * b, pct / 100.0);
  }

  lemma MulNonNegative(a: real, b: real)
    requires a >= 0.0 && b >= 0.0
    ensures a * b >= 0.0
  {
  }

  lemma ScaleWithin(t: real, s: real)
    requires t >= 0.0 && 0.0 <= s <= 1.0
    ensures 0.0 <= t * s <= t
  {
    assert t - t * s == t * (1.0 - s);
    MulNonNegative(t, 1.0 - s);
  }

  /** A public cost of at least half a unit rounds to a strictly positive integer. */
  lemma PublicCostPositive(iv: Intervention, m: Municipality)
    requires !Inert(iv, m)
    requires PublicPart(iv.coefficients.cost * DriverValue(iv.driver, m), iv.publicSharePercentage) >= 0.5
    ensures InterventionCosts(iv, m).publicCost >= 1
  {
    ScaledPublicPositive(iv.coefficients, iv.publicSharePercentage, DriverValue(iv.driver, m));
  }

  lemma ScaledPublicPositive(c: Coefficients, pct: real, d: real)
    requires PublicPart(c.cost * d, pct) >= 0.5
    ensures ScaledCosts(c, pct, d).publicCost >= 1
  {
    ScaledCostsRounded(c, pct, d);
  }

  /** Sums two cost-benefit records field by field. */
  function AddCosts(a: CostBenefit, b: CostBenefit): CostBenefit {
    CostBenefit(
      a.totalCost + b.totalCost, a.publicCost + b.publicCost, a.privateCost + b.privateCost,
      a.revenue + b.revenue, a.envBenefit + b.envBenefit, a.socBenefit + b.socBenefit, a.npv + b.npv)
  }
}
