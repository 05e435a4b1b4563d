/**
 * The shipped calibration of src/data/taurasi.js for the municipality of Taurasi (2022),
 * and proofs that it meets every condition the engine relies on.
 */
module Taurasi {
  import opened Wrappers
  import opened Calibration
  import opened Scoring
  import opened Costs
  import opened Optimizer
  import opened Simulation

  /** MUNICIPALITY_DATA: population, total MSW (t/year), firms, agricultural firms with UAA. */
  const ShippedMunicipality: Municipality := Municipality(2210.0, 743.0, 1030.0, 20.0)

  /** PCA_RESULTS: explained variances and the rotated, polarity-corrected loadings. */
  const ShippedPca: Pca := Pca(
    [56.34, 16.15, 16.09],
    [ [0.381003, 0.89459, -0.213684],
      [0.751384, 0.00685, -0.752621],
      [0.337724, -0.149784, -0.599481],
      [0.949673, 0.144157, -0.215842],
      [0.949382, 0.081859, -0.167123],
      [0.755817, 0.44174, -0.431606],
      [0.911477, 0.173475, -0.277172],
      [0.732725, -0.524156, -0.034115],
      [0.94613, 0.089762, -0.262476],
      [0.776967, 0.420059, -0.284928],
      [-0.003182, 0.910167, -0.068535],
      [0.955296, 0.09236, -0.255403],
      [0.969793, 0.154722, -0.193228],
      [0.784335, 0.681912, 0.335528],
      [0.932145, 0.255729, -0.27122],
      [0.955551, 0.15061, -0.029688],
      [-0.115961, -0.110706, 1.093224] ])

  /** INDICATORS: id, domain, value, mean, std, zScore, polarity, min, max. */
  const ShippedIndicators: seq<Indicator> := [
    Indicator(1, GE, 1.941748, 2.068023, 0.103416, -1.221045, 1, 1.941748, 2.200957),
    Indicator(2, SM, 25.97, 22.764167, 11.237664, -0.285276, -1, 0.0, 29.63),
    Indicator(3, BRS, 0.0, 286.023822, 601.740422, -0.475328, 1, 0.0, 1361.122222),
    Indicator(4, WM, 0.151584, 0.148779, 0.002638, -1.0631, -1, 0.145413, 0.151584),
    Indicator(5, WM, 0.045249, 0.0445, 0.000688, -1.089341, -1, 0.043578, 0.045249),
    Indicator(6, WM, 0.701493, 0.700891, 0.00086, -0.699336, -1, 0.7, 0.702065),
    Indicator(7, CW, 336.199095, 330.389081, 13.852706, -0.419414, -1, 315.137615, 349.333333),
    Indicator(8, CW, 67.967699, 67.674634, 0.415852, 0.704733, 1, 67.248908, 68.235294),
    Indicator(9, CW, 228.506787, 223.611316, 10.064476, 0.486411, 1, 211.926606, 236.0),
    Indicator(10, CW, 108.144796, 106.689563, 4.217835, -0.345019, -1, 102.752294, 113.333333),
    Indicator(11, CW, 6.334842, 8.029456, 1.32589, 1.278096, -1, 6.334842, 10.0),
    Indicator(12, CW, 210.749774, 207.401387, 6.087996, 0.549998, 1, 200.154128, 214.588),
    Indicator(13, CW, 148.413575, 140.880187, 10.464623, 0.719891, 1, 126.850917, 152.029333),
    Indicator(14, DECI, 3.0, 0.75, 1.38873, 1.620185, 1, 0.0, 3.0),
    Indicator(15, DECI, 29.788839, 30.177511, 0.405766, 0.957874, -1, 29.777778, 30.657492),
    Indicator(16, DECI, 50.667656, 49.208315, 1.794727, 0.813127, 1, 46.35064, 50.667656),
    Indicator(17, DECI, 19.0, 16.083333, 7.889339, -0.369697, -1, 0.0, 20.0)]

  /** BENCHMARKS for the six domains (L = worst, U = best). */
  const ShippedBenchmarks: map<Domain, Benchmark> := map[
    GE := Benchmark(-73.699993, 73.699993, 1),
    SM := Benchmark(-73.699993, 73.699993, 1),
    BRS := Benchmark(-73.699993, 73.699993, 1),
    WM := Benchmark(-127.652132, 127.652132, 3),
    CW := Benchmark(-194.991853, 194.991853, 7),
    DECI := Benchmark(-147.399986, 147.399986, 4)]

  /** BENCHMARKS.MCEI. */
  const ShippedMceiBenchmark: Benchmark := Benchmark(-303.872855, 303.872855, 17)

  /** POLARITY: 1 where more is better, -1 where less is better. */
  const ShippedPolarity: map<int, int> := map[
    1 := 1, 2 := -1, 3 := 1, 4 := -1, 5 := -1, 6 := -1, 7 := -1, 8 := 1, 9 := 1,
    10 := -1, 11 := -1, 12 := 1, 13 := 1, 14 := 1, 15 := -1, 16 := 1, 17 := -1]

  /** DOMAIN_INDICATORS. */
  const ShippedDomainIndicators: map<Domain, seq<int>> := map[
    GE := [1],
    SM := [2],
    BRS := [3],
    WM := [4, 5, 6],
    CW := [7, 8, 9, 10, 11, 12, 13],
    DECI := [14, 15, 16, 17]]

  /** GOAL_PROGRAMMING_WEIGHTS. */
  const ShippedWeights: GoalWeights := GoalWeights(1.0, 2.0, 2.0)

  const Shipped: Store := Store(
    ShippedMunicipality, ShippedPca, ShippedIndicators, ShippedBenchmarks,
    ShippedMceiBenchmark, ShippedPolarity, ShippedDomainIndicators, ShippedWeights)

  /** INTERVENTIONS P1..P6: id, public share (%), unit coefficients (cost, revenue,
      environmental and social benefit, NPV), driver, impacts on the indicators. */
  const CommunityComposting: Intervention := Intervention(1, 50.0,
    Coefficients(1136.0, 298.0, 124.0, 79.6, 1123.0), Organic,
    [Impact(7, Subtract, 0.13)])

  const RainwaterHarvesting: Intervention := Intervention(2, 80.0,
    Coefficients(643.0, 52.0, 0.064, 36.73, 385.6), Population,
    [Impact(4, Multiply, 0.4), Impact(5, Multiply, 0.4), Impact(6, Multiply, 0.4)])

  const BikePaths: Intervention := Intervention(3, 80.0,
    Coefficients(97.0, 25.45, 12.78, 11.42, 125.6), Population,
    [Impact(2, Subtract, 7.79)])

  const PackagingHub: Intervention := Intervention(4, 65.0,
    Coefficients(333.0, 112.0, 22.77, 17.84, 68.95), Msw,
    [Impact(1, NewFirm, 1.0), Impact(7, Subtract, 0.05)])

  const EWasteHub: Intervention := Intervention(5, 60.0,
    Coefficients(160.0, 143.0, 19.38, 14.1, 114.4), Population,
    [Impact(1, NewFirm, 1.0), Impact(7, Subtract, 0.003), Impact(12, Add, 11.83)])

  const SustainableWineries: Intervention := Intervention(6, 50.0,
    Coefficients(342849.0, 242899.0, 27525.0, 61000.0, 428840.0), AgriFirms,
    [Impact(2, Subtract, 3.9), Impact(7, Subtract, 0.39)])

  const Interventions: seq<Intervention> :=
    [CommunityComposting, RainwaterHarvesting, BikePaths, PackagingHub, EWasteHub, SustainableWineries]

  // ---------------------------------------------------------------------------
  // The shipped calibration is consistent
  // ---------------------------------------------------------------------------

  lemma ShippedScoringReady()
    ensures ScoringReady(Shipped)
  {
    assert PcaShaped(Shipped.pca, 17);
    forall d: Domain
      ensures d in ShippedDomainIndicators
      ensures forall j :: 0 <= j < |ShippedDomainIndicators[d]| ==> 1 <= ShippedDomainIndicators[d][j] <= 17
    {
      match d
      case GE => case SM => case BRS => case WM => case CW => case DECI =>
    }
    forall d: Domain
      ensures d in ShippedBenchmarks && ShippedBenchmarks[d].lower != ShippedBenchmarks[d].upper
    {
      match d
      case GE => case SM => case BRS => case WM => case CW => case DECI =>
    }
  }

  /** Indicator k has id k + 1 and a polarity of +1 or -1. */
  lemma ShippedIdAt(k: int)
    requires 0 <= k < |ShippedIndicators|
    ensures ShippedIndicators[k].id == k + 1
    ensures ShippedIndicators[k].polarity == 1 || ShippedIndicators[k].polarity == -1
  {
    if k == 0 { } else if k == 1 { } else if k == 2 { } else if k == 3 { } else if k == 4 { } else if k == 5 { } else if k == 6 { } else if k == 7 { } else if k == 8 { } else if k == 9 { } else if k == 10 { } else if k == 11 { } else if k == 12 { } else if k == 13 { } else if k == 14 { } else if k == 15 { } else { }
  }

  /** POLARITY agrees with indicator k's own polarity. */
  lemma ShippedPolarityAt(k: int)
    requires 0 <= k < |ShippedIndicators|
    ensures k + 1 in ShippedPolarity && ShippedPolarity[k + 1] == ShippedIndicators[k].polarity
  {
    if k == 0 { } else if k == 1 { } else if k == 2 { } else if k == 3 { } else if k == 4 { } else if k == 5 { } else if k == 6 { } else if k == 7 { } else if k == 8 { } else if k == 9 { } else if k == 10 { } else if k == 11 { } else if k == 12 { } else if k == 13 { } else if k == 14 { } else if k == 15 { } else { }
  }

  /** DOMAIN_INDICATORS lists indicator k under its own domain. */
  lemma ShippedListedAt(k: int)
    requires 0 <= k < |ShippedIndicators|
    ensures k + 1 in ShippedDomainIndicators[ShippedIndicators[k].domain]
  {
    if k == 0 { } else if k == 1 { } else if k == 2 { } else if k == 3 { } else if k == 4 { } else if k == 5 { } else if k == 6 { } else if k == 7 { } else if k == 8 { } else if k == 9 { } else if k == 10 { } else if k == 11 { } else if k == 12 { } else if k == 13 { } else if k == 14 { } else if k == 15 { } else { }
  }

  lemma ShippedIdsAndPolarity()
    ensures IdsAreIndices(Shipped.indicators)
    ensures PolarityAgrees(Shipped)
    ensures PolarityComplete(Shipped)
    ensures forall k :: 0 <= k < |Shipped.indicators| ==>
              Shipped.indicators[k].id in Shipped.domainIndicators[Shipped.indicators[k].domain]
  {
    forall k | 0 <= k < |ShippedIndicators|
      ensures var ind := ShippedIndicators[k];
              && ind.id == k + 1
              && ind.id in ShippedPolarity && ShippedPolarity[ind.id] == ind.polarity
              && (ind.polarity == 1 || ind.polarity == -1)
              && ind.id in ShippedDomainIndicators[ind.domain]
    {
      ShippedIdAt(k);
      ShippedPolarityAt(k);
      ShippedListedAt(k);
    }
  }

  /** Every id that DOMAIN_INDICATORS lists under d belongs to an indicator of domain d. */
  lemma ShippedExclusiveAt(d: Domain, id: int)
    requires id in ShippedDomainIndicators[d]
    ensures 1 <= id <= 17 && ShippedIndicators[id - 1].domain == d
  {
    match d
    case GE =>
    case SM =>
    case BRS =>
    case WM => assert id == 4 || id == 5 || id == 6;
    case CW => assert 7 <= id <= 13;
    case DECI => assert 14 <= id <= 17;
  }

  /** Each listed id belongs to an indicator of that domain. */
  lemma ShippedDomainsExclusive()
    ensures forall d: Domain, id ::
              (d in Shipped.domainIndicators && id in Shipped.domainIndicators[d] && 1 <= id <= |Shipped.indicators|)
              ==> Shipped.indicators[id - 1].domain == d
  {
    forall d: Domain, id | d in ShippedDomainIndicators && id in ShippedDomainIndicators[d]
      ensures ShippedIndicators[id - 1].domain == d
    {
      ShippedExclusiveAt(d, id);
    }
  }

  /** Each indicator is listed under its own domain and under no other. */
  lemma ShippedDomainsPartition()
    ensures DomainsPartition(Shipped)
  {
    ShippedScoringReady();
    ShippedIdsAndPolarity();
    ShippedDomainsExclusive();
  }

  lemma ShippedBenchmarksCalibrated()
    ensures DomainListsAscending(Shipped.domainIndicators)
    ensures BenchmarksCalibrated(Shipped)
  {
    forall d: Domain, i, j | d in ShippedDomainIndicators && 0 <= i < j < |ShippedDomainIndicators[d]|
      ensures ShippedDomainIndicators[d][i] < ShippedDomainIndicators[d][j]
    {
      match d
      case GE => case SM => case BRS => case WM => case CW => case DECI =>
    }
    forall d: Domain
      ensures d in ShippedBenchmarks && d in ShippedDomainIndicators
      ensures ShippedBenchmarks[d].lower == -ShippedBenchmarks[d].upper && ShippedBenchmarks[d].upper > 0.0
      ensures ShippedBenchmarks[d].nIndicators == |ShippedDomainIndicators[d]|
    {
      match d
      case GE => case SM => case BRS => case WM => case CW => case DECI =>
    }
  }

  /** The shipped calibration is well formed. */
  lemma ShippedWellFormed()
    ensures WellFormed(Shipped)
  {
    ShippedScoringReady();
    ShippedIdsAndPolarity();
    ShippedDomainsPartition();
    ShippedBenchmarksCalibrated();
  }

  /** Every shipped standard deviation is above the guard, so no z-score is forced to 0. */
  lemma ShippedStdsAboveGuard()
    ensures forall k :: 0 <= k < |Shipped.indicators| ==> Shipped.indicators[k].std >= StdEpsilon
  {
  }

  /** The catalog is well formed for the 17 shipped indicators. */
  lemma CatalogWellFormedShipped()
    ensures CatalogWellFormed(Interventions, |Shipped.indicators|)
  {
  }

  // ---------------------------------------------------------------------------
  // The shipped costs
  // ---------------------------------------------------------------------------

  /** Every shipped intervention has a non-negative driver value and cost and a percentage
      share, so its costs and benefits are non-negative. */
  lemma ShippedCostInputsSound()
    ensures forall i :: 0 <= i < |Interventions| ==> CostInputsSound(Interventions[i], ShippedMunicipality)
  {
  }

  /** P3 Bike Paths: 97 €/inhabitant over 2210 inhabitants, 80% public. */
  lemma BikePathsCosts()
    ensures InterventionCosts(BikePaths, ShippedMunicipality) ==
            CostBenefit(214370, 171496, 42874, 56245, 28244, 25238, 277576)
  {
    RoundUnique(214370.0, 214370);
    RoundUnique(171496.0, 171496);
    RoundUnique(42874.0, 42874);
    RoundUnique(56244.5, 56245);
    RoundUnique(28243.8, 28244);
    RoundUnique(25238.2, 25238);
    RoundUnique(277576.0, 277576);
  }

  /** P6 Sustainable Wineries is driven by the 20 agricultural firms (not inert here). */
  lemma SustainableWineriesCosts()
    ensures InterventionCosts(SustainableWineries, ShippedMunicipality) ==
            CostBenefit(6856980, 3428490, 3428490, 4857980, 550500, 1220000, 8576800)
  {
    RoundUnique(6856980.0, 6856980);
    RoundUnique(3428490.0, 3428490);
    RoundUnique(4857980.0, 4857980);
    RoundUnique(550500.0, 550500);
    RoundUnique(1220000.0, 1220000);
    RoundUnique(8576800.0, 8576800);
  }

  /** Every shipped intervention costs the public at least one euro. */
  lemma ShippedPublicCostsPositive()
    ensures forall i :: 0 <= i < |Interventions| ==>
              InterventionCosts(Interventions[i], ShippedMunicipality).publicCost >= 1
  {
    forall i | 0 <= i < |Interventions|
      ensures InterventionCosts(Interventions[i], ShippedMunicipality).publicCost >= 1
    {
      var iv := Interventions[i];
      assert !Inert(iv, ShippedMunicipality);
      assert PublicPart(iv.coefficients.cost * DriverValue(iv.driver, ShippedMunicipality),
                        iv.publicSharePercentage) >= 0.5;
      PublicCostPositive(iv, ShippedMunicipality);
    }
  }

  /** With no budget the shipped optimizer selects nothing, whatever the objective. */
  lemma ShippedZeroBudget(obj: Objective)
    ensures SimulationReady(Shipped) && ImpactsInRange(Interventions, |Shipped.indicators|)
    ensures OptimizationOf(0.0, obj, Interventions, Shipped) == EmptyRecord
  {
    ShippedWellFormed();
    CatalogWellFormedShipped();
    ShippedPublicCostsPositive();
    ZeroBudgetSelectsNothing(obj, Interventions, Shipped);
  }

  // ---------------------------------------------------------------------------
  // Simulating P1 Community Composting on the shipped data
  // ---------------------------------------------------------------------------

  /** Indicator 7 (municipal waste per inhabitant) after composting takes 0.13 off it: its
      fresh z-score, with polarity -1 and no historical clamp. */
  const CompostedZScore: real := ZScore(336.199095 - 0.13, 330.389081, 13.852706, -1.0, None, None)

  /** With only P1 active, the one impact that takes effect is the subtraction from indicator 7. */
  lemma CompostingImpacts()
    ensures ActiveImpacts([1], Interventions, ShippedMunicipality) == [Impact(7, Subtract, 0.13)]
  {
    var m := ShippedMunicipality;
    assert Interventions[..1] == [CommunityComposting];
    assert ActiveImpacts([1], Interventions[..0], m) == [];
    assert ActiveImpacts([1], Interventions[..1], m) == [Impact(7, Subtract, 0.13)];
    assert Interventions[..2][..1] == Interventions[..1];
    assert ActiveImpacts([1], Interventions[..2], m) == [Impact(7, Subtract, 0.13)];
    assert Interventions[..3][..2] == Interventions[..2];
    assert ActiveImpacts([1], Interventions[..3], m) == [Impact(7, Subtract, 0.13)];
    assert Interventions[..4][..3] == Interventions[..3];
    assert ActiveImpacts([1], Interventions[..4], m) == [Impact(7, Subtract, 0.13)];
    assert Interventions[..5][..4] == Interventions[..4];
    assert ActiveImpacts([1], Interventions[..5], m) == [Impact(7, Subtract, 0.13)];
    assert Interventions[..5] == Interventions[..|Interventions| - 1];
  }

  /** Subtracting 0.13 from indicator 7 of the baseline. */
  lemma CompostingApplied()
    ensures InRange([Impact(7, Subtract, 0.13)], |Shipped.indicators|)
    ensures ApplyImpacts(Baseline(Shipped), [Impact(7, Subtract, 0.13)]).values ==
            BaselineValues(ShippedIndicators)[6 := 336.199095 - 0.13]
  {
    var imps := [Impact(7, Subtract, 0.13)];
    assert imps[..|imps| - 1] == [];
  }

  /** With only P1 active, indicator 7 drops by 0.13 and every other value stays at baseline. */
  lemma CompostingValues()
    ensures SimulationReady(Shipped) && ImpactsInRange(Interventions, |Shipped.indicators|)
    ensures SimulatedValues([1], Interventions, Shipped) ==
            BaselineValues(ShippedIndicators)[6 := 336.199095 - 0.13]
  {
    ShippedWellFormed();
    CatalogWellFormedShipped();
    CompostingImpacts();
    SimulatedValuesFlat([1], Interventions, Shipped);
    var imps := [Impact(7, Subtract, 0.13)];
    assert imps[..0] == [];
    assert NewFirmSum(imps) == 0.0;
    CompostingApplied();
  }

  /** ... so indicator 7 gets a fresh z-score and every other indicator keeps its stored one. */
  lemma CompostingZScores()
    ensures SimulationReady(Shipped) && ImpactsInRange(Interventions, |Shipped.indicators|)
    ensures SimulatedZScores(Shipped, SimulatedValues([1], Interventions, Shipped)) ==
            StoredZScores(Shipped.indicators)[6 := CompostedZScore]
  {
    CompostingValues();
    var vs := SimulatedValues([1], Interventions, Shipped);
    var zs := SimulatedZScores(Shipped, vs);
    var stored := StoredZScores(ShippedIndicators);
    assert vs[6] != ShippedIndicators[6].value;
    assert Shipped.polarity[7] == -1;
    assert zs[6] == CompostedZScore;
    forall k | 0 <= k < |zs| && k != 6
      ensures zs[k] == stored[k]
    {
      assert vs[k] == ShippedIndicators[k].value;
    }
  }

  /** Less waste is better for indicator 7, so its z-score rises from -0.419414. */
  lemma CompostedZScoreRises()
    ensures CompostedZScore > -0.419414 == Shipped.indicators[6].zScore
  {
    assert CompostedZScore * 13.852706 == -(336.199095 - 0.13 - 330.389081);
  }

  /** Indicator 7 has a positive PCA weight (about 49.7). */
  lemma CompostingWeightPositive()
    ensures LoadingWeight(Shipped.pca.loadings[6], Shipped.pca.variance) > 0.0
  {
    assert ShippedPca.loadings[6] == [0.911477, 0.173475, -0.277172];
  }

  /** Simulating P1 Community Composting alone raises both the raw and the normalised MCEI of
      the shipped municipality above its current values. */
  lemma CommunityCompostingRaisesMcei()
    ensures SimulationReady(Shipped) && ImpactsInRange(Interventions, |Shipped.indicators|)
    ensures var now := SnapshotOf(Shipped, StoredZScores(Shipped.indicators));
            var sim := SimulationOf([1], Interventions, Shipped).snapshot;
            sim.mceiRaw > now.mceiRaw && sim.mcei > now.mcei
  {
    ShippedWellFormed();
    CompostingZScores();
    CompostedZScoreRises();
    CompostingWeightPositive();
    SimulationRaisesMcei([1], Interventions, Shipped, 6, CompostedZScore);
  }
}
