/**
 * The composite-index pipeline of src/utils/calculations.js:
 * raw value -> polarity-signed z-score -> PCA-weighted contribution ->
 * domain score -> MCEI, each normalised against its benchmark.
 */
module Scoring {
  import opened Wrappers
  import opened Calibration

  /** Standard deviations below this guard give a z-score of 0. */
  const StdEpsilon: real := 0.0000001

  function Min(a: real, b: real): real { if a <= b then a else b }

  function Max(a: real, b: real): real { if a >= b then a else b }

  /** Math.max(lo, Math.min(hi, x)). */
  function Clamp(x: real, lo: real, hi: real): (r: real)
    requires lo <= hi
    ensures lo <= r <= hi
    ensures lo <= x <= hi ==> r == x
    ensures x < lo ==> r == lo
    ensures x > hi ==> r == hi
  {
    Max(lo, Min(hi, x))
  }

  // ---------------------------------------------------------------------------
  // normalizeMinMax
  // ---------------------------------------------------------------------------

  lemma DivSelf(x: real)
    requires x != 0.0
    ensures x / x == 1.0
  {
  }

  lemma DivMulCancel(x: real, y: real)
    requires y != 0.0
    ensures (x / y) * y == x
  {
  }

  /** Dividing by a positive number keeps the sign and the order. */
  lemma DivPositive(a: real, b: real, c: real)
    requires c > 0.0
    ensures a < 0.0 <==> a / c < 0.0
    ensures a < b <==> a / c < b / c
  {
  }

  /** Min-max normalisation onto 0..100; deliberately not clipped. */
  function NormalizeMinMax(raw: real, lower: real, upper: real): (norm: real)
    requires lower != upper
    ensures raw == lower ==> norm == 0.0
    ensures raw == upper ==> norm == 100.0
    ensures lower + norm / 100.0 * (upper - lower) == raw
  {
    var q := (raw - lower) / (upper - lower);
    DivMulCancel(raw - lower, upper - lower);
    if raw == upper then DivSelf(upper - lower); q * 100.0 else q * 100.0
  }

  /** With L < U, a raw value below L maps below 0 and one above U maps above 100:
      nothing is clipped, and within [L, U] the result lies in [0, 100]. */
  lemma NormalizeUnclipped(raw: real, lower: real, upper: real)
    requires lower < upper
    ensures raw < lower <==> NormalizeMinMax(raw, lower, upper) < 0.0
    ensures raw > upper <==> NormalizeMinMax(raw, lower, upper) > 100.0
    ensures lower <= raw <= upper <==> 0.0 <= NormalizeMinMax(raw, lower, upper) <= 100.0
  {
    var w := upper - lower;
    DivPositive(raw - lower, w, w);
    DivSelf(w);
  }

  /** Normalisation is strictly increasing in the raw value when L < U. */
  lemma NormalizeMonotone(a: real, b: real, lower: real, upper: real)
    requires lower < upper && a < b
    ensures NormalizeMinMax(a, lower, upper) < NormalizeMinMax(b, lower, upper)
  {
    DivPositive(a - lower, b - lower, upper - lower);
  }

  // ---------------------------------------------------------------------------
  // calculateZScore
  // ---------------------------------------------------------------------------

  /** The value after the optional historical clamp: only when both bounds are given. */
  function ClampedValue(value: real, min: Option<real>, max: Option<real>): real {
    if min.Some? && max.Some? then Max(min.value, Min(max.value, value)) else value
  }

  /** Polarity-signed z-score; 0 when std is below the guard (std === 0 included). */
  function ZScore(value: real, mean: real, std: real, polarity: real, min: Option<real>, max: Option<real>): (z: real)
    ensures std < StdEpsilon ==> z == 0.0
    ensures std >= StdEpsilon ==> z * std == polarity * (ClampedValue(value, min, max) - mean)
  {
    if std < StdEpsilon then 0.0
    else polarity * ((ClampedValue(value, min, max) - mean) / std)
  }

  /** A clamped z-score lies between the z-scores of the two bounds. */
  lemma ZScoreClampedBetween(value: real, mean: real, std: real, polarity: real, lo: real, hi: real)
    requires std >= StdEpsilon
    ensures var z := ZScore(value, mean, std, polarity, Some(lo), Some(hi));
            var zlo := polarity * ((lo - mean) / std);
            var zhi := polarity * ((hi - mean) / std);
            Min(zlo, zhi) <= z <= Max(zlo, zhi)
  {
    var v := ClampedValue(value, Some(lo), Some(hi));
    if lo <= hi {
      assert lo <= v <= hi;
      var q, qlo, qhi := (v - mean) / std, (lo - mean) / std, (hi - mean) / std;
      DivPositive(lo - mean, v - mean, std);
      DivPositive(v - mean, hi - mean, std);
      ScaleBetween(polarity, qlo, q, qhi);
    } else {
      // Bounds given the wrong way round: Math.max(min, Math.min(max, v)) is min.
      assert v == lo;
    }
  }

  /** Multiplying a <= b <= c by any factor keeps b between the other two. */
  lemma ScaleBetween(k: real, a: real, b: real, c: real)
    requires a <= b <= c
    ensures Min(k * a, k * c) <= k * b <= Max(k * a, k * c)
  {
    if k >= 0.0 {
      MulNonNegativeOrder(k, a, b);
      MulNonNegativeOrder(k, b, c);
    } else {
      MulNonNegativeOrder(-k, a, b);
      MulNonNegativeOrder(-k, b, c);
    }
  }

  lemma MulNonNegativeOrder(k: real, a: real, b: real)
    requires k >= 0.0 && a <= b
    ensures k * a <= k * b
  {
    assert k * b - k * a == k * (b - a);
  }

  /** Polarity +1 means "higher is better": the z-score is positive exactly above the mean;
      polarity -1 means "lower is better": positive exactly below the mean. */
  lemma ZScoreSign(value: real, mean: real, std: real, polarity: real)
    requires std >= StdEpsilon && (polarity == 1.0 || polarity == -1.0)
    ensures var z := ZScore(value, mean, std, polarity, None, None);
            (polarity == 1.0 ==> (z > 0.0 <==> value > mean)) &&
            (polarity == -1.0 ==> (z > 0.0 <==> value < mean))
  {
    var q := (value - mean) / std;
    assert q * std == value - mean;
  }

  /** Without bounds the z-score is unbounded: some value scores 7, beyond the form's cap of 6. */
  lemma ZScoreUncapped(mean: real, std: real, polarity: real)
    requires std >= StdEpsilon && (polarity == 1.0 || polarity == -1.0)
    ensures ZScore(mean + polarity * 7.0 * std, mean, std, polarity, None, None) == 7.0
  {
    var v := mean + polarity * 7.0 * std;
    assert (v - mean) / std == polarity * 7.0;
  }

  // ---------------------------------------------------------------------------
  // calculateIndicatorContribution
  // ---------------------------------------------------------------------------

  /** Sum over the first f PCA components of loading * variance. */
  function PartialWeight(loadings: seq<real>, variance: seq<real>, f: nat): real
    requires f <= |loadings| && f <= |variance|
  {
    if f == 0 then 0.0
    else PartialWeight(loadings, variance, f - 1) + loadings[f - 1] * variance[f - 1]
  }

  /** The PCA weight of one indicator: sum over the three components of loading * variance. */
  function LoadingWeight(loadings: seq<real>, variance: seq<real>): real
    requires |loadings| >= 3 && |variance| >= 3
  {
    PartialWeight(loadings, variance, 3)
  }

  /** An indicator's contribution: its z-score times its PCA weight. */
  function Contribution(z: real, loadings: seq<real>, variance: seq<real>): real
    requires |loadings| >= 3 && |variance| >= 3
  {
    z * LoadingWeight(loadings, variance)
  }

  /** The loop adds z * loading[f] * variance[f] for f = 0, 1, 2; the sum factors as
      z times the indicator's PCA weight. */
  method IndicatorContribution(z: real, loadings: seq<real>, variance: seq<real>) returns (contribution: real)
    requires |loadings| >= 3 && |variance| >= 3
    ensures contribution == z * LoadingWeight(loadings, variance)
  {
    contribution := 0.0;
    for f := 0 to 3
      invariant contribution == z * PartialWeight(loadings, variance, f)
    {
      contribution := contribution + z * loadings[f] * variance[f];
    }
  }

  // ---------------------------------------------------------------------------
  // calculateDomains and calculateMCEI
  // ---------------------------------------------------------------------------

  /** Sum of the contributions of the indicators with the given ids. */
  function DomainSum(pca: Pca, zs: seq<real>, ids: seq<int>): real
    requires PcaShaped(pca, |zs|)
    requires forall j :: 0 <= j < |ids| ==> 1 <= ids[j] <= |zs|
  {
    if ids == [] then 0.0
    else
      var id := ids[|ids| - 1];
      DomainSum(pca, zs, ids[..|ids| - 1]) + Contribution(zs[id - 1], pca.loadings[id - 1], pca.variance)
  }

  lemma EveryDomainListed(d: Domain)
    ensures d in Domains
  {
    match d
    case GE => assert Domains[0] == d;
    case SM => assert Domains[1] == d;
    case BRS => assert Domains[2] == d;
    case WM => assert Domains[3] == d;
    case CW => assert Domains[4] == d;
    case DECI => assert Domains[5] == d;
  }

  /** The raw score of every domain, for a vector of z-scores. */
  function DomainScores(s: Store, zs: seq<real>): (raw: map<Domain, real>)
    requires ScoringReady(s) && |zs| == |s.indicators|
  {
    map d: Domain | d in Domains :: DomainSum(s.pca, zs, s.domainIndicators[d])
  }

  lemma DomainScoresTotal(s: Store, zs: seq<real>)
    requires ScoringReady(s) && |zs| == |s.indicators|
    ensures forall d: Domain :: d in DomainScores(s, zs) &&
              DomainScores(s, zs)[d] == DomainSum(s.pca, zs, s.domainIndicators[d])
  {
    forall d: Domain ensures d in Domains { EveryDomainListed(d); }
  }

  /** The inner loop of calculateDomains: one domain's indicator contributions, summed. */
  method SumDomain(pca: Pca, zs: seq<real>, ids: seq<int>) returns (domainValue: real)
    requires PcaShaped(pca, |zs|)
    requires forall j :: 0 <= j < |ids| ==> 1 <= ids[j] <= |zs|
    ensures domainValue == DomainSum(pca, zs, ids)
  {
    domainValue := 0.0;
    for j := 0 to |ids|
      invariant domainValue == DomainSum(pca, zs, ids[..j])
    {
      var idx := ids[j] - 1;
      var contribution := IndicatorContribution(zs[idx], pca.loadings[idx], pca.variance);
      assert ids[..j + 1][..j] == ids[..j];
      domainValue := domainValue + contribution;
    }
    assert ids[..|ids|] == ids;
  }

  /** Fills the domain map: for each domain in order, sums the contributions of its indicators. */
  method CalculateDomains(s: Store, zs: seq<real>) returns (domains: map<Domain, real>)
    requires ScoringReady(s) && |zs| == |s.indicators|
    ensures domains == DomainScores(s, zs)
  {
    domains := map[];
    for k := 0 to |Domains|
      invariant forall d :: d in domains <==> d in Domains[..k]
      invariant forall d :: d in domains ==> domains[d] == DomainSum(s.pca, zs, s.domainIndicators[d])
    {
      var domainValue := SumDomain(s.pca, zs, s.domainIndicators[Domains[k]]);
      domains := domains[Domains[k] := domainValue];
      assert Domains[..k + 1] == Domains[..k] + [Domains[k]];
    }
    assert Domains[..|Domains|] == Domains;
    DomainScoresTotal(s, zs);
  }

  /** Sum of the domain scores in the given order. */
  function SumInOrder(ds: seq<Domain>, domains: map<Domain, real>): real
    requires forall d: Domain :: d in domains
  {
    if ds == [] then 0.0 else domains[ds[0]] + SumInOrder(ds[1..], domains)
  }

  /** Summing in the fixed domain order adds up the six domain scores. */
  lemma SumInDomainOrder(domains: map<Domain, real>)
    requires forall d: Domain :: d in domains
    ensures SumInOrder(Domains, domains) ==
            domains[GE] + domains[SM] + domains[BRS] + domains[WM] + domains[CW] + domains[DECI]
  {
    var t5 := [DECI];
    var t4 := [CW] + t5;
    var t3 := [WM] + t4;
    var t2 := [BRS] + t3;
    var t1 := [SM] + t2;
    assert Domains == [GE] + t1;
    assert t5[1..] == [] && t4[1..] == t5 && t3[1..] == t4 && t2[1..] == t3 && t1[1..] == t2;
    assert Domains[1..] == t1;
    assert SumInOrder(t5, domains) == domains[DECI];
    assert SumInOrder(t4, domains) == domains[CW] + SumInOrder(t5, domains);
    assert SumInOrder(t3, domains) == domains[WM] + SumInOrder(t4, domains);
    assert SumInOrder(t2, domains) == domains[BRS] + SumInOrder(t3, domains);
    assert SumInOrder(t1, domains) == domains[SM] + SumInOrder(t2, domains);
    assert SumInOrder(Domains, domains) == domains[GE] + SumInOrder(t1, domains);
  }

  /** The MCEI is the plain sum of the six domain scores. */
  function CalculateMcei(domains: map<Domain, real>): (mcei: real)
    requires forall d: Domain :: d in domains
    ensures mcei == domains[GE] + domains[SM] + domains[BRS] + domains[WM] + domains[CW] + domains[DECI]
  {
    SumInDomainOrder(domains);
    SumInOrder(Domains, domains)
  }

  // ---------------------------------------------------------------------------
  // Score snapshots (the shared tail of calculateCurrentState and runSimulation)
  // ---------------------------------------------------------------------------

  datatype Snapshot = Snapshot(
    domains: map<Domain, real>,
    domainsRaw: map<Domain, real>,
    mcei: real,
    mceiRaw: real)

  /** The snapshot the engine computes from a vector of z-scores. */
  function SnapshotOf(s: Store, zs: seq<real>): Snapshot
    requires ScoringReady(s) && |zs| == |s.indicators|
  {
    DomainScoresTotal(s, zs);
    var raw := DomainScores(s, zs);
    var mceiRaw := CalculateMcei(raw);
    Snapshot(
      NormalizedDomains(raw, s.benchmarks),
      raw,
      NormalizeMinMax(mceiRaw, s.mceiBenchmark.lower, s.mceiBenchmark.upper),
      mceiRaw)
  }

  /** Each domain score normalised against its own benchmark. */
  function NormalizedDomains(raw: map<Domain, real>, b: map<Domain, Benchmark>): map<Domain, real>
    requires forall d: Domain :: d in raw && d in b && b[d].lower != b[d].upper
  {
    map[
      GE := NormalizeMinMax(raw[GE], b[GE].lower, b[GE].upper),
      SM := NormalizeMinMax(raw[SM], b[SM].lower, b[SM].upper),
      BRS := NormalizeMinMax(raw[BRS], b[BRS].lower, b[BRS].upper),
      WM := NormalizeMinMax(raw[WM], b[WM].lower, b[WM].upper),
      CW := NormalizeMinMax(raw[CW], b[CW].lower, b[CW].upper),
      DECI := NormalizeMinMax(raw[DECI], b[DECI].lower, b[DECI].upper)]
  }

  /** Every domain has its normalised score, on its own benchmark's scale. */
  lemma NormalizedDomainsAt(raw: map<Domain, real>, b: map<Domain, Benchmark>, d: Domain)
    requires forall d: Domain :: d in raw && d in b && b[d].lower != b[d].upper
    ensures d in NormalizedDomains(raw, b)
    ensures NormalizedDomains(raw, b)[d] == NormalizeMinMax(raw[d], b[d].lower, b[d].upper)
  {
    match d
    case GE =>
    case SM =>
    case BRS =>
    case WM =>
    case CW =>
    case DECI =>
  }

  /** Every field of the snapshot: raw domain scores are the sums of their indicators'
      contributions, raw MCEI the sum of the six, and each normalised value sits on its
      benchmark's scale (0 at L, 100 at U, affine in between and beyond). */
  lemma SnapshotFields(s: Store, zs: seq<real>)
    requires ScoringReady(s) && |zs| == |s.indicators|
    ensures var snap := SnapshotOf(s, zs);
      && (forall d: Domain :: d in snap.domainsRaw && d in snap.domains &&
            snap.domainsRaw[d] == DomainSum(s.pca, zs, s.domainIndicators[d]) &&
            snap.domains[d] == NormalizeMinMax(snap.domainsRaw[d], s.benchmarks[d].lower, s.benchmarks[d].upper))
      && snap.mceiRaw == snap.domainsRaw[GE] + snap.domainsRaw[SM] + snap.domainsRaw[BRS] +
                         snap.domainsRaw[WM] + snap.domainsRaw[CW] + snap.domainsRaw[DECI]
      && snap.mcei == NormalizeMinMax(snap.mceiRaw, s.mceiBenchmark.lower, s.mceiBenchmark.upper)
  {
    DomainScoresTotal(s, zs);
    var raw := DomainScores(s, zs);
    forall d: Domain
      ensures d in NormalizedDomains(raw, s.benchmarks)
      ensures NormalizedDomains(raw, s.benchmarks)[d] == NormalizeMinMax(raw[d], s.benchmarks[d].lower, s.benchmarks[d].upper)
    {
      NormalizedDomainsAt(raw, s.benchmarks, d);
    }
  }

  /** Scores a z-score vector: domains, MCEI, and their normalisations. */
  method ScoreZScores(s: Store, zs: seq<real>) returns (snap: Snapshot)
    requires ScoringReady(s) && |zs| == |s.indicators|
    ensures snap == SnapshotOf(s, zs)
  {
    var domains := CalculateDomains(s, zs);
    DomainScoresTotal(s, zs);
    var mceiRaw := CalculateMcei(domains);
    var normalizedDomains := NormalizedDomains(domains, s.benchmarks);
    var mceiNormalized := NormalizeMinMax(mceiRaw, s.mceiBenchmark.lower, s.mceiBenchmark.upper);
    snap := Snapshot(normalizedDomains, domains, mceiNormalized, mceiRaw);
  }

  // ---------------------------------------------------------------------------
  // calculateCurrentState
  // ---------------------------------------------------------------------------

  /** The precomputed zScore fields of the indicators, in order. */
  function StoredZScores(inds: seq<Indicator>): (zs: seq<real>)
    ensures |zs| == |inds|
    ensures forall k :: 0 <= k < |inds| ==> zs[k] == inds[k].zScore
  {
    seq(|inds|, k requires 0 <= k < |inds| => inds[k].zScore)
  }

  /** The baseline snapshot, from the stored z-scores (nothing is recomputed). */
  method CalculateCurrentState(s: Store) returns (snap: Snapshot)
    requires ScoringReady(s)
    ensures snap == SnapshotOf(s, StoredZScores(s.indicators))
  {
    var zScores := StoredZScores(s.indicators);
    snap := ScoreZScores(s, zScores);
  }

  // ---------------------------------------------------------------------------
  // Sensitivity of the MCEI to one z-score
  // ---------------------------------------------------------------------------

  /** How many times id occurs in a list. */
  function Occurrences(ids: seq<int>, id: int): nat
    decreases |ids|
  {
    if ids == [] then 0
    else Occurrences(ids[..|ids| - 1], id) + (if ids[|ids| - 1] == id then 1 else 0)
  }

  /** How many times id is listed over all six domains. */
  function ListedCount(di: map<Domain, seq<int>>, id: int): nat
    requires forall d: Domain :: d in di
  {
    Occurrences(di[GE], id) + Occurrences(di[SM], id) + Occurrences(di[BRS], id) +
    Occurrences(di[WM], id) + Occurrences(di[CW], id) + Occurrences(di[DECI], id)
  }

  /** n copies of d added up (n * d, kept linear for the solver). */
  function Copies(n: nat, d: real): real {
    if n == 0 then 0.0 else Copies(n - 1, d) + d
  }

  lemma {:induction false} CopiesAdd(a: nat, b: nat, d: real)
    ensures Copies(a + b, d) == Copies(a, d) + Copies(b, d)
    decreases b
  {
    if b > 0 {
      CopiesAdd(a, b - 1, d);
    }
  }

  /** The change in indicator k's contribution when its z-score goes from zs[k] to z. */
  function ContributionChange(pca: Pca, zs: seq<real>, k: nat, z: real): real
    requires PcaShaped(pca, |zs|) && k < |zs|
  {
    Contribution(z, pca.loadings[k], pca.variance) - Contribution(zs[k], pca.loadings[k], pca.variance)
  }

  /** Changing one z-score moves a domain sum by the change in that indicator's
      contribution, once per listing of its id. */
  lemma {:induction false} DomainSumUpdate(pca: Pca, zs: seq<real>, ids: seq<int>, k: nat, z: real)
    requires PcaShaped(pca, |zs|) && k < |zs|
    requires forall j :: 0 <= j < |ids| ==> 1 <= ids[j] <= |zs|
    ensures DomainSum(pca, zs[k := z], ids) ==
            DomainSum(pca, zs, ids) + Copies(Occurrences(ids, k + 1), ContributionChange(pca, zs, k, z))
    decreases |ids|
  {
    if ids != [] {
      DomainSumUpdate(pca, zs, ids[..|ids| - 1], k, z);
    }
  }

  /** The six domain sums added up. */
  function RawMcei(s: Store, zs: seq<real>): real
    requires ScoringReady(s) && |zs| == |s.indicators|
  {
    var di := s.domainIndicators;
    DomainSum(s.pca, zs, di[GE]) + DomainSum(s.pca, zs, di[SM]) + DomainSum(s.pca, zs, di[BRS]) +
    DomainSum(s.pca, zs, di[WM]) + DomainSum(s.pca, zs, di[CW]) + DomainSum(s.pca, zs, di[DECI])
  }

  /** The raw MCEI of a snapshot is the sum of the six domain sums. */
  lemma MceiRawSum(s: Store, zs: seq<real>)
    requires ScoringReady(s) && |zs| == |s.indicators|
    ensures SnapshotOf(s, zs).mceiRaw == RawMcei(s, zs)
  {
    DomainScoresTotal(s, zs);
  }

  lemma CopiesSix(o1: nat, o2: nat, o3: nat, o4: nat, o5: nat, o6: nat, c: real)
    ensures Copies(o1 + o2 + o3 + o4 + o5 + o6, c) ==
            Copies(o1, c) + Copies(o2, c) + Copies(o3, c) + Copies(o4, c) + Copies(o5, c) + Copies(o6, c)
  {
    CopiesAdd(o1, o2, c);
    CopiesAdd(o1 + o2, o3, c);
    CopiesAdd(o1 + o2 + o3, o4, c);
    CopiesAdd(o1 + o2 + o3 + o4, o5, c);
    CopiesAdd(o1 + o2 + o3 + o4 + o5, o6, c);
  }

  /** Changing one z-score from zs[k] to z moves the six domain sums together by the change
      in that indicator's contribution, once for every listing of its id. */
  lemma RawMceiUpdate(s: Store, zs: seq<real>, k: nat, z: real)
    requires ScoringReady(s) && |zs| == |s.indicators| && k < |zs|
    ensures RawMcei(s, zs[k := z]) ==
            RawMcei(s, zs) + Copies(ListedCount(s.domainIndicators, k + 1), ContributionChange(s.pca, zs, k, z))
  {
    var di, c := s.domainIndicators, ContributionChange(s.pca, zs, k, z);
    DomainSumUpdate(s.pca, zs, di[GE], k, z);
    DomainSumUpdate(s.pca, zs, di[SM], k, z);
    DomainSumUpdate(s.pca, zs, di[BRS], k, z);
    DomainSumUpdate(s.pca, zs, di[WM], k, z);
    DomainSumUpdate(s.pca, zs, di[CW], k, z);
    DomainSumUpdate(s.pca, zs, di[DECI], k, z);
    CopiesSix(Occurrences(di[GE], k + 1), Occurrences(di[SM], k + 1), Occurrences(di[BRS], k + 1),
              Occurrences(di[WM], k + 1), Occurrences(di[CW], k + 1), Occurrences(di[DECI], k + 1), c);
  }

  /** Changing one z-score from zs[k] to z moves the raw MCEI by the change in that
      indicator's contribution, once for every listing of its id among the domains. */
  lemma MceiRawUpdate(s: Store, zs: seq<real>, k: nat, z: real)
    requires ScoringReady(s) && |zs| == |s.indicators| && k < |zs|
    ensures SnapshotOf(s, zs[k := z]).mceiRaw ==
            SnapshotOf(s, zs).mceiRaw + Copies(ListedCount(s.domainIndicators, k + 1), ContributionChange(s.pca, zs, k, z))
  {
    MceiRawSum(s, zs);
    MceiRawSum(s, zs[k := z]);
    RawMceiUpdate(s, zs, k, z);
  }

  /** In a strictly ascending list an id occurs once if at all. */
  lemma {:induction false} OccurrencesAscending(ids: seq<int>, id: int)
    requires forall i, j :: 0 <= i < j < |ids| ==> ids[i] < ids[j]
    ensures Occurrences(ids, id) == if id in ids then 1 else 0
    decreases |ids|
  {
    if ids != [] {
      var init := ids[..|ids| - 1];
      OccurrencesAscending(init, id);
      assert ids == init + [ids[|ids| - 1]];
      if ids[|ids| - 1] == id {
        assert id !in init by {
          forall i | 0 <= i < |init| ensures init[i] != id {
            assert ids[i] < ids[|ids| - 1];
          }
        }
      }
    }
  }

  /** In a partition an id is listed under exactly its own indicator's domain. */
  lemma ListedIff(s: Store, k: nat, d: Domain)
    requires DomainsPartition(s) && IdsAreIndices(s.indicators) && k < |s.indicators|
    ensures k + 1 in s.domainIndicators[d] <==> d == s.indicators[k].domain
  {
    assert s.indicators[k].id == k + 1;
    if k + 1 in s.domainIndicators[d] {
      assert s.indicators[k].domain == d;
    }
  }

  /** An id is listed under a domain once when that is its indicator's domain, else never. */
  lemma ListedAt(s: Store, k: nat, d: Domain)
    requires DomainsPartition(s) && DomainListsAscending(s.domainIndicators)
    requires IdsAreIndices(s.indicators) && k < |s.indicators|
    ensures Occurrences(s.domainIndicators[d], k + 1) == if d == s.indicators[k].domain then 1 else 0
  {
    var ids := s.domainIndicators[d];
    assert forall i, j :: 0 <= i < j < |ids| ==> ids[i] < ids[j] by {
      assert d in s.domainIndicators;
    }
    OccurrencesAscending(ids, k + 1);
    ListedIff(s, k, d);
  }

  /** In a consistent calibration every indicator's id is listed exactly once. */
  lemma ListedOnce(s: Store, k: nat)
    requires WellFormed(s) && k < |s.indicators|
    ensures ListedCount(s.domainIndicators, k + 1) == 1
  {
    assert DomainsPartition(s) && DomainListsAscending(s.domainIndicators) && IdsAreIndices(s.indicators);
    ListedAt(s, k, GE);
    ListedAt(s, k, SM);
    ListedAt(s, k, BRS);
    ListedAt(s, k, WM);
    ListedAt(s, k, CW);
    ListedAt(s, k, DECI);
  }

  /** The contribution changes by the z-score's change times the PCA weight. */
  lemma ContributionChangeIs(pca: Pca, zs: seq<real>, k: nat, z: real)
    requires PcaShaped(pca, |zs|) && k < |zs|
    ensures ContributionChange(pca, zs, k, z) == (z - zs[k]) * LoadingWeight(pca.loadings[k], pca.variance)
  {
    var w := LoadingWeight(pca.loadings[k], pca.variance);
    assert z * w - zs[k] * w == (z - zs[k]) * w;
  }

  /** With a consistent calibration, changing one z-score moves the raw MCEI by exactly the
      change times the indicator's PCA weight. */
  lemma MceiRawChange(s: Store, zs: seq<real>, k: nat, z: real)
    requires WellFormed(s) && |zs| == |s.indicators| && k < |zs|
    ensures SnapshotOf(s, zs[k := z]).mceiRaw - SnapshotOf(s, zs).mceiRaw ==
            (z - zs[k]) * LoadingWeight(s.pca.loadings[k], s.pca.variance)
  {
    MceiRawUpdate(s, zs, k, z);
    ListedOnce(s, k);
    ContributionChangeIs(s.pca, zs, k, z);
    assert Copies(1, ContributionChange(s.pca, zs, k, z)) == ContributionChange(s.pca, zs, k, z);
  }

  /** The normalised MCEI of a snapshot is its raw MCEI on the MCEI benchmark's scale. */
  lemma MceiNormalizedOf(s: Store, zs: seq<real>)
    requires ScoringReady(s) && |zs| == |s.indicators|
    ensures SnapshotOf(s, zs).mcei == NormalizeMinMax(SnapshotOf(s, zs).mceiRaw, s.mceiBenchmark.lower, s.mceiBenchmark.upper)
  {
  }

  /** Raising the z-score of an indicator with a positive PCA weight raises its contribution. */
  lemma ContributionChangePositive(pca: Pca, zs: seq<real>, k: nat, z: real)
    requires PcaShaped(pca, |zs|) && k < |zs|
    requires z > zs[k] && LoadingWeight(pca.loadings[k], pca.variance) > 0.0
    ensures ContributionChange(pca, zs, k, z) > 0.0
  {
    ContributionChangeIs(pca, zs, k, z);
    MulPositive(z - zs[k], LoadingWeight(pca.loadings[k], pca.variance));
  }

  /** Raising the z-score of an indicator with a positive PCA weight raises the raw MCEI. */
  lemma MceiRawRisesWithZScore(s: Store, zs: seq<real>, k: nat, z: real)
    requires WellFormed(s) && |zs| == |s.indicators| && k < |zs|
    requires z > zs[k] && LoadingWeight(s.pca.loadings[k], s.pca.variance) > 0.0
    ensures SnapshotOf(s, zs[k := z]).mceiRaw > SnapshotOf(s, zs).mceiRaw
  {
    MceiRawUpdate(s, zs, k, z);
    ListedOnce(s, k);
    ContributionChangePositive(s.pca, zs, k, z);
    assert Copies(1, ContributionChange(s.pca, zs, k, z)) == ContributionChange(s.pca, zs, k, z);
  }

  /** ... and so the normalised MCEI as well. */
  lemma MceiRisesWithZScore(s: Store, zs: seq<real>, k: nat, z: real)
    requires WellFormed(s) && |zs| == |s.indicators| && k < |zs|
    requires z > zs[k] && LoadingWeight(s.pca.loadings[k], s.pca.variance) > 0.0
    ensures SnapshotOf(s, zs[k := z]).mcei > SnapshotOf(s, zs).mcei
  {
    MceiRawRisesWithZScore(s, zs, k, z);
    MceiNormalizedOf(s, zs);
    MceiNormalizedOf(s, zs[k := z]);
    var b := s.mceiBenchmark;
    NormalizeMonotone(SnapshotOf(s, zs).mceiRaw, SnapshotOf(s, zs[k := z]).mceiRaw, b.lower, b.upper);
  }

  lemma MulPositive(a: real, b: real)
    requires a > 0.0 && b > 0.0
    ensures a * b > 0.0
  {
  }
}
