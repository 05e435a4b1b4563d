/**
 * The shapes of the calibration data of src/data/taurasi.js and the conditions
 * on them that the engine relies on.  The JavaScript reads these as module-level
 * constants; here they are bundled in a `Store` that the engine takes as a parameter.
 */
module Calibration {

  /** The six domains, in the fixed order of DOMAIN_INDICATORS. */
  datatype Domain = GE | SM | BRS | WM | CW | DECI

  const Domains: seq<Domain> := [GE, SM, BRS, WM, CW, DECI]

  /** The fields of MUNICIPALITY_DATA that drive the engine. */
  datatype Municipality = Municipality(
    population: real,
    totalMsw: real,
    totalFirms: real,
    agriFirmsWithUaa: real)

  /** PCA_RESULTS: component variances (percentages) and one row of loadings per indicator. */
  datatype Pca = Pca(variance: seq<real>, loadings: seq<seq<real>>)

  /** One entry of INDICATORS (display-only name, unit and domain name left out). */
  datatype Indicator = Indicator(
    id: int,
    domain: Domain,
    value: real,
    mean: real,
    std: real,
    zScore: real,
    polarity: int,
    min: real,
    max: real)

  /** One entry of BENCHMARKS: L (worst), U (best), and the number of indicators aggregated. */
  datatype Benchmark = Benchmark(lower: real, upper: real, nIndicators: nat)

  /** The `driver` string of an intervention; any other string is `OtherDriver`. */
  datatype Driver = Population | Msw | Organic | AgriFirms | OtherDriver(name: string)

  /** The `type` string of an impact; any other string is `OtherKind`. */
  datatype ImpactKind = Subtract | Add | Multiply | NewFirm | OtherKind(name: string)
  {
    /** The kinds that write to the indicator they name. */
    predicate WritesValue() { Subtract? || Add? || Multiply? }
  }

  datatype Impact = Impact(indicator: int, kind: ImpactKind, value: real)

  datatype Coefficients = Coefficients(
    cost: real,
    revenue: real,
    envBenefit: real,
    socBenefit: real,
    npv: real)

  /** One entry of INTERVENTIONS (display-only texts left out). */
  datatype Intervention = Intervention(
    id: int,
    publicSharePercentage: real,
    coefficients: Coefficients,
    driver: Driver,
    impacts: seq<Impact>)

  datatype GoalWeights = GoalWeights(environmental: real, social: real, npv: real)

  /** The calibration store: every constant the engine reads except the intervention catalog. */
  datatype Store = Store(
    municipality: Municipality,
    pca: Pca,
    indicators: seq<Indicator>,
    benchmarks: map<Domain, Benchmark>,
    mceiBenchmark: Benchmark,
    polarity: map<int, int>,
    domainIndicators: map<Domain, seq<int>>,
    weights: GoalWeights)

  // ---------------------------------------------------------------------------
  // What each part of the engine needs of the store (else the JavaScript reads
  // `undefined` or divides by zero).
  // ---------------------------------------------------------------------------

  /** Three component variances, and one row of three loadings per indicator. */
  predicate PcaShaped(p: Pca, n: nat) {
    && |p.variance| == 3
    && |p.loadings| == n
    && forall k :: 0 <= k < n ==> |p.loadings[k]| == 3
  }

  /** Every domain has a list of indicator ids, each in 1..n. */
  predicate DomainsIndexed(di: map<Domain, seq<int>>, n: nat) {
    forall d: Domain :: d in di && forall j :: 0 <= j < |di[d]| ==> 1 <= di[d][j] <= n
  }

  /** Every benchmark, and the MCEI one, has U != L. */
  predicate BenchmarksProper(s: Store) {
    && (forall d: Domain :: d in s.benchmarks && s.benchmarks[d].lower != s.benchmarks[d].upper)
    && s.mceiBenchmark.lower != s.mceiBenchmark.upper
  }

  /** What the z-score -> domain -> MCEI pipeline needs. */
  predicate ScoringReady(s: Store) {
    && PcaShaped(s.pca, |s.indicators|)
    && DomainsIndexed(s.domainIndicators, |s.indicators|)
    && BenchmarksProper(s)
  }

  /** POLARITY has an entry for every indicator's id. */
  predicate PolarityComplete(s: Store) {
    forall k :: 0 <= k < |s.indicators| ==> s.indicators[k].id in s.polarity
  }

  /** What runSimulation needs besides the catalog: a first indicator to overwrite and a
      non-negative firm count to divide by. */
  predicate SimulationReady(s: Store) {
    && ScoringReady(s)
    && PolarityComplete(s)
    && |s.indicators| > 0
    && s.municipality.totalFirms >= 0.0
  }

  /** Every impact that writes an indicator value names an indicator in 1..n. */
  predicate ImpactsInRange(cat: seq<Intervention>, n: nat) {
    forall i, j :: 0 <= i < |cat| && 0 <= j < |cat[i].impacts| && cat[i].impacts[j].kind.WritesValue() ==>
      1 <= cat[i].impacts[j].indicator <= n
  }

  // ---------------------------------------------------------------------------
  // Consistency of the calibration itself.
  // ---------------------------------------------------------------------------

  /** INDICATORS[k].id == k + 1, matching row k of the loadings. */
  predicate IdsAreIndices(inds: seq<Indicator>) {
    forall k :: 0 <= k < |inds| ==> inds[k].id == k + 1
  }

  /** POLARITY[id] is the indicator's own polarity, and that is +1 or -1. */
  predicate PolarityAgrees(s: Store) {
    forall k :: 0 <= k < |s.indicators| ==>
      && s.indicators[k].id in s.polarity
      && s.polarity[s.indicators[k].id] == s.indicators[k].polarity
      && (s.indicators[k].polarity == 1 || s.indicators[k].polarity == -1)
  }

  /** Each id 1..n lies in exactly one domain's list, in the domain its indicator names. */
  predicate DomainsPartition(s: Store) {
    && DomainsIndexed(s.domainIndicators, |s.indicators|)
    && (forall k :: 0 <= k < |s.indicators| ==> s.indicators[k].id in s.domainIndicators[s.indicators[k].domain])
    && (forall d: Domain, id :: id in s.domainIndicators[d] && 1 <= id <= |s.indicators| ==>
          s.indicators[id - 1].domain == d)
  }

  /** Each domain list is strictly ascending. */
  predicate DomainListsAscending(di: map<Domain, seq<int>>) {
    forall d: Domain, i, j :: d in di && 0 <= i < j < |di[d]| ==> di[d][i] < di[d][j]
  }

  /** Benchmarks are symmetric (L == -U, U > 0) and count their indicators. */
  predicate BenchmarksCalibrated(s: Store) {
    && (forall d: Domain :: d in s.benchmarks && d in s.domainIndicators &&
          s.benchmarks[d].lower == -s.benchmarks[d].upper && s.benchmarks[d].upper > 0.0 &&
          s.benchmarks[d].nIndicators == |s.domainIndicators[d]|)
    && s.mceiBenchmark.lower == -s.mceiBenchmark.upper
    && s.mceiBenchmark.upper > 0.0
    && s.mceiBenchmark.nIndicators == |s.indicators|
  }

  /** The whole calibration is consistent. */
  predicate WellFormed(s: Store) {
    && SimulationReady(s)
    && IdsAreIndices(s.indicators)
    && PolarityAgrees(s)
    && DomainsPartition(s)
    && DomainListsAscending(s.domainIndicators)
    && BenchmarksCalibrated(s)
  }

  /** No two interventions share an id (the engine selects interventions by id). */
  predicate IdsDistinct(cat: seq<Intervention>) {
    forall i, j :: 0 <= i < j < |cat| ==> cat[i].id != cat[j].id
  }

  /** Ids are distinct, every impact names an indicator in 1..n and a known operation, every
      driver is known, and every public share is a percentage. */
  predicate CatalogWellFormed(cat: seq<Intervention>, n: nat) {
    && IdsDistinct(cat)
    && ImpactsInRange(cat, n)
    && (forall i, j :: 0 <= i < |cat| && 0 <= j < |cat[i].impacts| ==>
          1 <= cat[i].impacts[j].indicator <= n && !cat[i].impacts[j].kind.OtherKind?)
    && (forall i :: 0 <= i < |cat| ==>
          !cat[i].driver.OtherDriver? && 0.0 <= cat[i].publicSharePercentage <= 100.0)
  }
}
