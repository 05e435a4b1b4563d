/**
 * The what-if form of src/components/SimulatedDataForm.jsx: the user types raw indicator
 * values, and the form rescores them with its own inline copy of the pipeline.  The copy
 * differs from the engine in two places: z-scores are capped to [-6, 6] (and raw values
 * are not clamped to their historical range), and normalised scores are clipped to [0, 100].
 * The contribution and domain loops are textually the engine's and are reused from `Scoring`.
 */
module SimulatedForm {
  import opened Wrappers
  import opened Calibration
  import opened Scoring

  /** Z_SCORE_CAP: the theoretical bound of a z-score in the form. */
  const ZScoreCap: real := 6.0

  // ---------------------------------------------------------------------------
  // The form's calculateZScore and normalizeMinMax
  // ---------------------------------------------------------------------------

  /** The form's z-score: 0 below the std guard, else the signed z-score capped to the
      cap on either side.  The raw value is used as typed. */
  function FormZScore(value: real, mean: real, std: real, polarity: real): (z: real)
    ensures -ZScoreCap <= z <= ZScoreCap
  {
    Clamp(ZScore(value, mean, std, polarity, None, None), -ZScoreCap, ZScoreCap)
  }

  /** The form agrees with the engine's unclamped z-score wherever that lies within the cap,
      and otherwise returns the cap on the engine's side. */
  lemma FormZScoreAgainstEngine(value: real, mean: real, std: real, polarity: real)
    ensures var e := ZScore(value, mean, std, polarity, None, None);
            var z := FormZScore(value, mean, std, polarity);
            && (std < StdEpsilon ==> z == 0.0)
            && (-ZScoreCap <= e <= ZScoreCap ==> z == e)
            && (e > ZScoreCap ==> z == ZScoreCap)
            && (e < -ZScoreCap ==> z == -ZScoreCap)
  {
  }

  /** The cap binds: seven standard deviations on the good side score 6 in the form,
      where the engine scores 7. */
  lemma {:induction false} FormZScoreCapBinds(mean: real, std: real, polarity: real)
    requires std >= StdEpsilon && (polarity == 1.0 || polarity == -1.0)
    ensures var v := mean + polarity * 7.0 * std;
            && FormZScore(v, mean, std, polarity) == ZScoreCap
            && ZScore(v, mean, std, polarity, None, None) == 7.0
  {
    ZScoreUncapped(mean, std, polarity);
  }

  /** The form's calculateZScore as written: compute, then pull the value back to the cap
      on whichever side it overshoots. */
  method ComputeFormZScore(value: real, mean: real, std: real, polarity: real) returns (z: real)
    ensures z == FormZScore(value, mean, std, polarity)
  {
    if std == 0.0 || std < StdEpsilon {
      return 0.0;
    }
    z := polarity * ((value - mean) / std);
    if z > ZScoreCap {
      z := ZScoreCap;
    }
    if z < -ZScoreCap {
      z := -ZScoreCap;
    }
  }

  /** The form's normaliser: the engine's affine map, then clipped to [0, 100]. */
  function FormNormalize(raw: real, lower: real, upper: real): (norm: real)
    requires lower != upper
    ensures 0.0 <= norm <= 100.0
  {
    Clamp(NormalizeMinMax(raw, lower, upper), 0.0, 100.0)
  }

  /** On a benchmark with L < U the form agrees with the engine between L and U, and pins
      values below L to 0 and above U to 100. */
  lemma FormNormalizeAgainstEngine(raw: real, lower: real, upper: real)
    requires lower < upper
    ensures lower <= raw <= upper ==> FormNormalize(raw, lower, upper) == NormalizeMinMax(raw, lower, upper)
    ensures raw < lower ==> FormNormalize(raw, lower, upper) == 0.0
    ensures raw > upper ==> FormNormalize(raw, lower, upper) == 100.0
  {
    NormalizeUnclipped(raw, lower, upper);
  }

  /** The form's normalizeMinMax as written: compute, then clip below 0 and above 100. */
  method ComputeFormNormalize(raw: real, lower: real, upper: real) returns (norm: real)
    requires lower != upper
    ensures norm == FormNormalize(raw, lower, upper)
  {
    norm := ((raw - lower) / (upper - lower)) * 100.0;
    if norm < 0.0 {
      norm := 0.0;
    }
    if norm > 100.0 {
      norm := 100.0;
    }
  }

  // ---------------------------------------------------------------------------
  // The value map: initial state, resetToBaseline, handleValueChange
  // ---------------------------------------------------------------------------

  /** INDICATORS folded into an object keyed by id, each id mapped to its value (a later
      entry with the same id overwrites an earlier one). */
  function BaselineMap(inds: seq<Indicator>): map<int, real>
  {
    if |inds| == 0 then map[]
    else BaselineMap(inds[..|inds| - 1])[inds[|inds| - 1].id := inds[|inds| - 1].value]
  }

  /** The baseline map has exactly the indicators' ids as keys, and with distinct ids
      (ids 1..n in order) maps each id to its own indicator's value. */
  lemma {:induction false} BaselineMapAt(inds: seq<Indicator>)
    requires IdsAreIndices(inds)
    ensures forall id :: id in BaselineMap(inds) <==> 1 <= id <= |inds|
    ensures forall k :: 0 <= k < |inds| ==> BaselineMap(inds)[k + 1] == inds[k].value
  {
    if |inds| > 0 {
      var init := inds[..|inds| - 1];
      assert IdsAreIndices(init) by {
        forall k | 0 <= k < |init| ensures init[k].id == k + 1 {
          assert init[k] == inds[k];
        }
      }
      BaselineMapAt(init);
      forall k | 0 <= k < |init| ensures init[k] == inds[k] { }
    }
  }

  /** The initial state and resetToBaseline: every indicator id mapped to its baseline value. */
  method ResetToBaseline(inds: seq<Indicator>) returns (values: map<int, real>)
    ensures values == BaselineMap(inds)
  {
    values := map[];
    for k := 0 to |inds|
      invariant values == BaselineMap(inds[..k])
    {
      assert inds[..k + 1][..k] == inds[..k];
      values := values[inds[k].id := inds[k].value];
    }
    assert inds[..|inds|] == inds;
  }

  /** `parseFloat(value) || 0`: the entered value when it parses to a number other than 0,
      else 0.  `None` stands for an input that does not parse (NaN). */
  function Entered(parsed: Option<real>): real {
    if parsed.Some? && parsed.value != 0.0 then parsed.value else 0.0
  }

  /** handleValueChange: the previous map with the entry for `id` replaced by the entered value. */
  function HandleValueChange(prev: map<int, real>, id: int, parsed: Option<real>): (next: map<int, real>)
    ensures id in next && next[id] == (if parsed.Some? then parsed.value else 0.0)
    ensures forall k :: k != id ==> (k in next <==> k in prev)
    ensures forall k :: k != id && k in prev ==> next[k] == prev[k]
  {
    prev[id := Entered(parsed)]
  }

  // ---------------------------------------------------------------------------
  // simulatedResults
  // ---------------------------------------------------------------------------

  /** Every indicator's id has an entered value. */
  predicate Covers(values: map<int, real>, inds: seq<Indicator>) {
    forall k :: 0 <= k < |inds| ==> inds[k].id in values
  }

  /** The baseline covers a calibration with ids 1..n. */
  lemma BaselineCovers(inds: seq<Indicator>)
    requires IdsAreIndices(inds)
    ensures Covers(BaselineMap(inds), inds)
  {
    BaselineMapAt(inds);
  }

  /** All z-scores recomputed from the entered values, in INDICATORS order. */
  function FormZScores(s: Store, values: map<int, real>): (zs: seq<real>)
    requires PolarityComplete(s) && Covers(values, s.indicators)
    ensures |zs| == |s.indicators|
    ensures forall k :: 0 <= k < |zs| ==> -ZScoreCap <= zs[k] <= ZScoreCap
    ensures forall k :: 0 <= k < |zs| ==>
      zs[k] == FormZScore(values[s.indicators[k].id], s.indicators[k].mean, s.indicators[k].std,
                          s.polarity[s.indicators[k].id] as real)
  {
    seq(|s.indicators|, k requires 0 <= k < |s.indicators| =>
      FormZScore(values[s.indicators[k].id], s.indicators[k].mean, s.indicators[k].std,
                 s.polarity[s.indicators[k].id] as real))
  }

  /** Changing one indicator's value recomputes only the z-scores of indicators with that id. */
  lemma HandleValueChangeLocal(s: Store, prev: map<int, real>, id: int, parsed: Option<real>)
    requires PolarityComplete(s) && Covers(prev, s.indicators)
    ensures Covers(HandleValueChange(prev, id, parsed), s.indicators)
    ensures forall k :: 0 <= k < |s.indicators| && s.indicators[k].id != id ==>
              FormZScores(s, HandleValueChange(prev, id, parsed))[k] == FormZScores(s, prev)[k]
  {
  }

  /** What the form displays: normalised, clipped domain scores and MCEI. */
  datatype FormResult = FormResult(domains: map<Domain, real>, mcei: real)

  /** Each raw domain score clipped-normalised against its own benchmark. */
  function ClippedDomains(raw: map<Domain, real>, b: map<Domain, Benchmark>): map<Domain, real>
    requires forall d: Domain :: d in raw && d in b && b[d].lower != b[d].upper
  {
    map[
      GE := FormNormalize(raw[GE], b[GE].lower, b[GE].upper),
      SM := FormNormalize(raw[SM], b[SM].lower, b[SM].upper),
      BRS := FormNormalize(raw[BRS], b[BRS].lower, b[BRS].upper),
      WM := FormNormalize(raw[WM], b[WM].lower, b[WM].upper),
      CW := FormNormalize(raw[CW], b[CW].lower, b[CW].upper),
      DECI := FormNormalize(raw[DECI], b[DECI].lower, b[DECI].upper)]
  }

  /** Every domain has its clipped score, on its own benchmark's scale. */
  lemma ClippedDomainsAt(raw: map<Domain, real>, b: map<Domain, Benchmark>, d: Domain)
    requires forall d: Domain :: d in raw && d in b && b[d].lower != b[d].upper
    ensures d in ClippedDomains(raw, b)
    ensures ClippedDomains(raw, b)[d] == FormNormalize(raw[d], b[d].lower, b[d].upper)
  {
    match d
    case GE =>
    case SM =>
    case BRS =>
    case WM =>
    case CW =>
    case DECI =>
  }

  /** The form's result for a map of entered values. */
  function FormResultOf(s: Store, values: map<int, real>): FormResult
    requires ScoringReady(s) && PolarityComplete(s) && Covers(values, s.indicators)
  {
    var zs := FormZScores(s, values);
    DomainScoresTotal(s, zs);
    var raw := DomainScores(s, zs);
    FormResult(
      ClippedDomains(raw, s.benchmarks),
      FormNormalize(CalculateMcei(raw), s.mceiBenchmark.lower, s.mceiBenchmark.upper))
  }

  /** simulatedResults: recompute z-scores, sum the domains, sum the MCEI, normalise and clip. */
  method SimulatedResults(s: Store, values: map<int, real>) returns (r: FormResult)
    requires ScoringReady(s) && PolarityComplete(s) && Covers(values, s.indicators)
    ensures r == FormResultOf(s, values)
  {
    var zScores := FormZScores(s, values);
    var domains := CalculateDomains(s, zScores);
    DomainScoresTotal(s, zScores);
    var mceiRaw := CalculateMcei(domains);
    var normalizedDomains := ClippedDomains(domains, s.benchmarks);
    var mceiNormalized := ComputeFormNormalize(mceiRaw, s.mceiBenchmark.lower, s.mceiBenchmark.upper);
    r := FormResult(normalizedDomains, mceiNormalized);
  }

  /** The form's scores are the engine's snapshot of the form's z-scores, clipped to [0, 100];
      in particular every displayed score lies in [0, 100]. */
  lemma FormResultIsClippedSnapshot(s: Store, values: map<int, real>)
    requires ScoringReady(s) && PolarityComplete(s) && Covers(values, s.indicators)
    ensures var r := FormResultOf(s, values);
            var snap := SnapshotOf(s, FormZScores(s, values));
            && (forall d: Domain :: d in r.domains && d in snap.domains &&
                  r.domains[d] == Clamp(snap.domains[d], 0.0, 100.0) &&
                  0.0 <= r.domains[d] <= 100.0)
            && r.mcei == Clamp(snap.mcei, 0.0, 100.0)
            && 0.0 <= r.mcei <= 100.0
  {
    var zs := FormZScores(s, values);
    DomainScoresTotal(s, zs);
    var raw := DomainScores(s, zs);
    SnapshotFields(s, zs);
    forall d: Domain
      ensures d in ClippedDomains(raw, s.benchmarks)
      ensures ClippedDomains(raw, s.benchmarks)[d] == FormNormalize(raw[d], s.benchmarks[d].lower, s.benchmarks[d].upper)
    {
      ClippedDomainsAt(raw, s.benchmarks, d);
    }
  }
}
