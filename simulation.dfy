/**
 * The what-if simulation (runSimulation of src/utils/calculations.js): the active
 * interventions' impacts are applied to a copy of the indicator values in catalog order,
 * new firms are counted and folded into indicator 1, changed indicators get a fresh
 * unclamped z-score, and the result is scored and costed.
 */
module Simulation {
  import opened Wrappers
  import opened Calibration
  import opened Scoring
  import opened Costs

  /** The working state of the impact loop: one simulated value per indicator, and the
      running count of new firms. */
  datatype SimState = SimState(values: seq<real>, newFirms: real)

  /** Every value-writing impact of the list names an indicator in 1..n. */
  predicate InRange(imps: seq<Impact>, n: nat) {
    forall j :: 0 <= j < |imps| && imps[j].kind.WritesValue() ==> 1 <= imps[j].indicator <= n
  }

  /** The product x * factor, named so that equal products are recognised as equal. */
  function Times(x: real, factor: real): real {
    x * factor
  }

  /** One impact: subtract, add or multiply on the indicator's value, a new-firm count
      added to the counter, any other kind ignored. */
  function ApplyImpact(st: SimState, imp: Impact): (r: SimState)
    requires imp.kind.WritesValue() ==> 1 <= imp.indicator <= |st.values|
    ensures |r.values| == |st.values|
  {
    match imp.kind
    case Subtract => st.(values := st.values[imp.indicator - 1 := st.values[imp.indicator - 1] - imp.value])
    case Add => st.(values := st.values[imp.indicator - 1 := st.values[imp.indicator - 1] + imp.value])
    case Multiply => st.(values := st.values[imp.indicator - 1 := Times(st.values[imp.indicator - 1], imp.value)])
    case NewFirm => st.(newFirms := st.newFirms + imp.value)
    case OtherKind(_) => st
  }

  /** A list of impacts, applied first to last. */
  function ApplyImpacts(st: SimState, imps: seq<Impact>): (r: SimState)
    requires InRange(imps, |st.values|)
    ensures |r.values| == |st.values|
    decreases |imps|
  {
    if imps == [] then st
    else ApplyImpact(ApplyImpacts(st, imps[..|imps| - 1]), imps[|imps| - 1])
  }

  /** An intervention takes effect when it is active and not inert. */
  predicate Applies(iv: Intervention, active: seq<int>, m: Municipality) {
    iv.id in active && !Inert(iv, m)
  }

  /** The impact loop over the catalog: each applying intervention's impacts, in catalog
      order. */
  function ApplyCatalog(st: SimState, active: seq<int>, cat: seq<Intervention>, m: Municipality): (r: SimState)
    requires ImpactsInRange(cat, |st.values|)
    ensures |r.values| == |st.values|
    decreases |cat|
  {
    if cat == [] then st
    else
      var prev := ApplyCatalog(st, active, cat[..|cat| - 1], m);
      var iv := cat[|cat| - 1];
      if Applies(iv, active, m) then ApplyImpacts(prev, iv.impacts) else prev
  }

  /** The stored baseline values of the indicators, in order. */
  function BaselineValues(inds: seq<Indicator>): (vs: seq<real>)
    ensures |vs| == |inds|
    ensures forall k :: 0 <= k < |inds| ==> vs[k] == inds[k].value
  {
    seq(|inds|, k requires 0 <= k < |inds| => inds[k].value)
  }

  /** The state the impact loop starts from: the baseline values and no new firms. */
  function Baseline(s: Store): (st: SimState)
    ensures |st.values| == |s.indicators| && st.newFirms == 0.0
  {
    SimState(BaselineValues(s.indicators), 0.0)
  }

  /** Indicator 1 after n new agricultural firms: their share of all firms, in percent. */
  function FirmsShare(m: Municipality, n: real): real
    requires m.totalFirms >= 0.0 && n > 0.0
  {
    (m.agriFirmsWithUaa + n) / (m.totalFirms + n) * 100.0
  }

  /** The simulated indicator values: impacts applied, then indicator 1 overwritten when
      some new firms were counted. */
  function SimulatedValues(active: seq<int>, cat: seq<Intervention>, s: Store): (vs: seq<real>)
    requires SimulationReady(s) && ImpactsInRange(cat, |s.indicators|)
    ensures |vs| == |s.indicators|
  {
    var st := ApplyCatalog(Baseline(s), active, cat, s.municipality);
    if st.newFirms > 0.0 then st.values[0 := FirmsShare(s.municipality, st.newFirms)]
    else st.values
  }

  /** Z-scores after simulation: a changed value gets a fresh z-score with its POLARITY
      entry and no historical clamp; an unchanged one keeps its stored z-score. */
  function SimulatedZScores(s: Store, vs: seq<real>): (zs: seq<real>)
    requires PolarityComplete(s) && |vs| == |s.indicators|
    ensures |zs| == |vs|
  {
    seq(|vs|, k requires 0 <= k < |vs| =>
      var ind := s.indicators[k];
      if vs[k] != ind.value then ZScore(vs[k], ind.mean, ind.std, s.polarity[ind.id] as real, None, None)
      else ind.zScore)
  }

  /** Field-by-field sum of the costs of the active interventions, in catalog order. */
  function TotalsOf(active: seq<int>, cat: seq<Intervention>, m: Municipality): CostBenefit
    decreases |cat|
  {
    if cat == [] then ZeroCosts
    else
      var prev := TotalsOf(active, cat[..|cat| - 1], m);
      var iv := cat[|cat| - 1];
      if iv.id in active then AddCosts(prev, InterventionCosts(iv, m)) else prev
  }

  datatype SimulationResult = SimulationResult(
    snapshot: Snapshot,
    simulatedValues: seq<real>,
    totals: CostBenefit)

  /** What runSimulation returns. */
  function SimulationOf(active: seq<int>, cat: seq<Intervention>, s: Store): SimulationResult
    requires SimulationReady(s) && ImpactsInRange(cat, |s.indicators|)
  {
    var vs := SimulatedValues(active, cat, s);
    SimulationResult(SnapshotOf(s, SimulatedZScores(s, vs)), vs, TotalsOf(active, cat, s.municipality))
  }

  lemma ImpactsInRangePrefix(cat: seq<Intervention>, n: nat, i: nat)
    requires ImpactsInRange(cat, n) && i <= |cat|
    ensures ImpactsInRange(cat[..i], n)
  {
    assert forall k :: 0 <= k < i ==> cat[..i][k] == cat[k];
  }

  /** One step of the impact loop: updates the value array in place, or the count. */
  method ApplyImpactInPlace(simulated: array<real>, newFirms: real, imp: Impact) returns (count: real)
    requires imp.kind.WritesValue() ==> 1 <= imp.indicator <= simulated.Length
    modifies simulated
    ensures SimState(simulated[..], count) == ApplyImpact(SimState(old(simulated[..]), newFirms), imp)
  {
    var idx := imp.indicator - 1;
    count := newFirms;
    match imp.kind {
      case Subtract => simulated[idx] := simulated[idx] - imp.value;
      case Add => simulated[idx] := simulated[idx] + imp.value;
      case Multiply => simulated[idx] := Times(simulated[idx], imp.value);
      case NewFirm => count := count + imp.value;
      case OtherKind(_) =>
    }
  }

  /** The inner impact loop of runSimulation for one intervention. */
  method ApplyImpactsInPlace(simulated: array<real>, newFirms: real, imps: seq<Impact>) returns (count: real)
    requires InRange(imps, simulated.Length)
    modifies simulated
    ensures SimState(simulated[..], count) == ApplyImpacts(SimState(old(simulated[..]), newFirms), imps)
  {
    ghost var before := SimState(simulated[..], newFirms);
    count := newFirms;
    var j := 0;
    while j < |imps|
      invariant 0 <= j <= |imps|
      invariant InRange(imps[..j], simulated.Length)
      invariant SimState(simulated[..], count) == ApplyImpacts(before, imps[..j])
    {
      assert imps[..j + 1][..j] == imps[..j];
      assert imps[..j + 1][j] == imps[j];
      count := ApplyImpactInPlace(simulated, count, imps[j]);
      j := j + 1;
    }
    assert imps[..|imps|] == imps;
  }

  /** The outer impact loop of runSimulation: every applying intervention, in catalog order. */
  method ApplyCatalogInPlace(simulated: array<real>, active: seq<int>, cat: seq<Intervention>, m: Municipality)
    returns (newFirms: real)
    requires ImpactsInRange(cat, simulated.Length)
    modifies simulated
    ensures SimState(simulated[..], newFirms) == ApplyCatalog(SimState(old(simulated[..]), 0.0), active, cat, m)
  {
    ghost var start := SimState(simulated[..], 0.0);
    newFirms := 0.0;
    var i := 0;
    while i < |cat|
      invariant 0 <= i <= |cat|
      invariant ImpactsInRange(cat[..i], simulated.Length)
      invariant SimState(simulated[..], newFirms) == ApplyCatalog(start, active, cat[..i], m)
    {
      var iv := cat[i];
      ImpactsInRangePrefix(cat, simulated.Length, i + 1);
      assert cat[..i + 1][..i] == cat[..i];
      assert cat[..i + 1][i] == iv;
      if iv.id in active && !(iv.driver == AgriFirms && m.agriFirmsWithUaa == 0.0) {
        newFirms := ApplyImpactsInPlace(simulated, newFirms, iv.impacts);
      }
      i := i + 1;
    }
    assert cat[..|cat|] == cat;
  }

  /** The cost loop of runSimulation: the active interventions' costs, summed. */
  method SumTotals(active: seq<int>, cat: seq<Intervention>, m: Municipality) returns (totals: CostBenefit)
    ensures totals == TotalsOf(active, cat, m)
  {
    totals := ZeroCosts;
    var i := 0;
    while i < |cat|
      invariant 0 <= i <= |cat|
      invariant totals == TotalsOf(active, cat[..i], m)
    {
      assert cat[..i + 1][..i] == cat[..i];
      if cat[i].id in active {
        var costs := InterventionCosts(cat[i], m);
        totals := AddCosts(totals, costs);
      }
      i := i + 1;
    }
    assert cat[..|cat|] == cat;
  }

  /** runSimulation: copies the values, applies the impacts in place, recomputes
      indicator 1 and the changed z-scores, scores the result and sums the costs. */
  method RunSimulation(active: seq<int>, cat: seq<Intervention>, s: Store) returns (r: SimulationResult)
    requires SimulationReady(s) && ImpactsInRange(cat, |s.indicators|)
    ensures r == SimulationOf(active, cat, s)
  {
    var n := |s.indicators|;
    var m := s.municipality;
    var simulated := new real[n](k requires 0 <= k < n => s.indicators[k].value);
    assert simulated[..] == BaselineValues(s.indicators);
    var newFirms := ApplyCatalogInPlace(simulated, active, cat, m);
    if newFirms > 0.0 {
      var totalFirms := m.totalFirms + newFirms;
      var agriFirms := m.agriFirmsWithUaa + newFirms;
      simulated[0] := agriFirms / totalFirms * 100.0;
    }
    var values := simulated[..];
    assert values == SimulatedValues(active, cat, s);
    var zScores := SimulatedZScores(s, values);
    var snap := ScoreZScores(s, zScores);
    var totals := SumTotals(active, cat, m);
    r := SimulationResult(snap, values, totals);
  }

  // ---------------------------------------------------------------------------
  // Properties of the simulation
  // ---------------------------------------------------------------------------

  /** The impacts that take effect, flattened in catalog order. */
  function ActiveImpacts(active: seq<int>, cat: seq<Intervention>, m: Municipality): seq<Impact>
    decreases |cat|
  {
    if cat == [] then []
    else
      var prev := ActiveImpacts(active, cat[..|cat| - 1], m);
      var iv := cat[|cat| - 1];
      if Applies(iv, active, m) then prev + iv.impacts else prev
  }

  /** The sum of the new-firm counts of a list of impacts. */
  function NewFirmSum(imps: seq<Impact>): real
    decreases |imps|
  {
    if imps == [] then 0.0
    else
      var last := imps[|imps| - 1];
      NewFirmSum(imps[..|imps| - 1]) + (if last.kind == NewFirm then last.value else 0.0)
  }

  lemma InRangeAppend(a: seq<Impact>, b: seq<Impact>, n: nat)
    ensures InRange(a + b, n) <==> InRange(a, n) && InRange(b, n)
  {
    assert forall j :: 0 <= j < |a| ==> (a + b)[j] == a[j];
    assert forall j :: 0 <= j < |b| ==> (a + b)[|a| + j] == b[j];
  }

  /** The flattened impacts of an in-range catalog are in range. */
  lemma {:induction false} ActiveImpactsInRange(active: seq<int>, cat: seq<Intervention>, m: Municipality, n: nat)
    requires ImpactsInRange(cat, n)
    ensures InRange(ActiveImpacts(active, cat, m), n)
    decreases |cat|
  {
    if cat != [] {
      var k := |cat| - 1;
      ImpactsInRangePrefix(cat, n, k);
      ActiveImpactsInRange(active, cat[..k], m, n);
      assert InRange(cat[k].impacts, n);
      InRangeAppend(ActiveImpacts(active, cat[..k], m), cat[k].impacts, n);
    }
  }

  /** Applying a + b is applying a, then b. */
  lemma {:induction false} ApplyImpactsAppend(st: SimState, a: seq<Impact>, b: seq<Impact>)
    requires InRange(a + b, |st.values|)
    ensures InRange(a, |st.values|) && InRange(b, |st.values|)
    ensures ApplyImpacts(st, a + b) == ApplyImpacts(ApplyImpacts(st, a), b)
    decreases |b|
  {
    InRangeAppend(a, b, |st.values|);
    if b == [] {
      assert a + b == a;
    } else {
      var k := |b| - 1;
      assert (a + b)[..|a + b| - 1] == a + b[..k];
      assert (a + b)[|a + b| - 1] == b[k];
      InRangeAppend(b[..k], [b[k]], |st.values|);
      assert b[..k] + [b[k]] == b;
      InRangeAppend(a, b[..k], |st.values|);
      ApplyImpactsAppend(st, a, b[..k]);
    }
  }

  /** Reference characterisation of the impact loop: applying the catalog is applying the
      flattened list of the impacts of the active, non-inert interventions, in order. */
  lemma {:induction false} ApplyCatalogFlat(st: SimState, active: seq<int>, cat: seq<Intervention>, m: Municipality)
    requires ImpactsInRange(cat, |st.values|)
    ensures InRange(ActiveImpacts(active, cat, m), |st.values|)
    ensures ApplyCatalog(st, active, cat, m) == ApplyImpacts(st, ActiveImpacts(active, cat, m))
    decreases |cat|
  {
    ActiveImpactsInRange(active, cat, m, |st.values|);
    if cat != [] {
      var k := |cat| - 1;
      ImpactsInRangePrefix(cat, |st.values|, k);
      ApplyCatalogFlat(st, active, cat[..k], m);
      if Applies(cat[k], active, m) {
        ApplyImpactsAppend(st, ActiveImpacts(active, cat[..k], m), cat[k].impacts);
      }
    }
  }

  /** The new-firm counter ends at its start plus the sum of the new-firm impacts. */
  lemma {:induction false} ApplyImpactsNewFirms(st: SimState, imps: seq<Impact>)
    requires InRange(imps, |st.values|)
    ensures ApplyImpacts(st, imps).newFirms == st.newFirms + NewFirmSum(imps)
    decreases |imps|
  {
    if imps != [] {
      ApplyImpactsNewFirms(st, imps[..|imps| - 1]);
    }
  }

  /** A value no value-writing impact targets is left as it was; in particular a new-firm
      impact never writes a value. */
  lemma {:induction false} ApplyImpactsUntargeted(st: SimState, imps: seq<Impact>, k: nat)
    requires InRange(imps, |st.values|) && k < |st.values|
    requires forall j :: 0 <= j < |imps| && imps[j].kind.WritesValue() ==> imps[j].indicator != k + 1
    ensures ApplyImpacts(st, imps).values[k] == st.values[k]
    decreases |imps|
  {
    if imps != [] {
      ApplyImpactsUntargeted(st, imps[..|imps| - 1], k);
    }
  }

  /** The simulated values, stated without the loops: the flattened active impacts applied to
      the baseline, then indicator 1 set to the new firms' share when their sum is positive. */
  lemma SimulatedValuesFlat(active: seq<int>, cat: seq<Intervention>, s: Store)
    requires SimulationReady(s) && ImpactsInRange(cat, |s.indicators|)
    ensures var imps := ActiveImpacts(active, cat, s.municipality);
      && InRange(imps, |s.indicators|)
      && var vs := ApplyImpacts(Baseline(s), imps).values;
         var n := NewFirmSum(imps);
         SimulatedValues(active, cat, s) == if n > 0.0 then vs[0 := FirmsShare(s.municipality, n)] else vs
  {
    ApplyCatalogFlat(Baseline(s), active, cat, s.municipality);
    ApplyImpactsNewFirms(Baseline(s), ActiveImpacts(active, cat, s.municipality));
  }

  /** An indicator that no active, non-inert intervention writes, and that is not indicator 1
      overwritten by new firms, keeps its baseline value and its stored z-score. */
  lemma UntargetedKept(active: seq<int>, cat: seq<Intervention>, s: Store, k: nat)
    requires SimulationReady(s) && ImpactsInRange(cat, |s.indicators|) && k < |s.indicators|
    requires var imps := ActiveImpacts(active, cat, s.municipality);
      && (forall j :: 0 <= j < |imps| && imps[j].kind.WritesValue() ==> imps[j].indicator != k + 1)
      && (k == 0 ==> NewFirmSum(imps) <= 0.0)
    ensures var vs := SimulatedValues(active, cat, s);
      vs[k] == s.indicators[k].value && SimulatedZScores(s, vs)[k] == s.indicators[k].zScore
  {
    SimulatedValuesFlat(active, cat, s);
    ApplyImpactsUntargeted(Baseline(s), ActiveImpacts(active, cat, s.municipality), k);
  }

  lemma {:induction false} ActiveImpactsNone(active: seq<int>, cat: seq<Intervention>, m: Municipality)
    requires forall i :: 0 <= i < |cat| ==> cat[i].id !in active
    ensures ActiveImpacts(active, cat, m) == []
    decreases |cat|
  {
    if cat != [] {
      ActiveImpactsNone(active, cat[..|cat| - 1], m);
    }
  }

  lemma {:induction false} TotalsNone(active: seq<int>, cat: seq<Intervention>, m: Municipality)
    requires forall i :: 0 <= i < |cat| ==> cat[i].id !in active
    ensures TotalsOf(active, cat, m) == ZeroCosts
    decreases |cat|
  {
    if cat != [] {
      TotalsNone(active, cat[..|cat| - 1], m);
    }
  }

  /** With no catalog intervention active (an empty list in particular) the simulation keeps
      every baseline value, reuses every stored z-score, and so reproduces the current
      state's scores, at zero cost. */
  lemma SimulateNoneActive(active: seq<int>, cat: seq<Intervention>, s: Store)
    requires SimulationReady(s) && ImpactsInRange(cat, |s.indicators|)
    requires forall i :: 0 <= i < |cat| ==> cat[i].id !in active
    ensures SimulationOf(active, cat, s) ==
            SimulationResult(SnapshotOf(s, StoredZScores(s.indicators)), BaselineValues(s.indicators), ZeroCosts)
  {
    ActiveImpactsNone(active, cat, s.municipality);
    TotalsNone(active, cat, s.municipality);
    SimulatedValuesFlat(active, cat, s);
    assert SimulatedValues(active, cat, s) == BaselineValues(s.indicators);
    assert SimulatedZScores(s, BaselineValues(s.indicators)) == StoredZScores(s.indicators);
  }

  /** Removing one entry from a catalog keeps its impacts in range. */
  lemma ImpactsInRangeRemove(pre: seq<Intervention>, iv: Intervention, post: seq<Intervention>, n: nat)
    requires ImpactsInRange(pre + [iv] + post, n)
    ensures ImpactsInRange(pre + post, n)
  {
    var c := pre + [iv] + post;
    forall i | 0 <= i < |pre + post|
      ensures (pre + post)[i] == c[if i < |pre| then i else i + 1]
    {
    }
  }

  /** The impact loop skips an inert intervention wherever it stands in the catalog. */
  lemma {:induction false} ApplyCatalogSkipsInert(st: SimState, active: seq<int>, pre: seq<Intervention>,
                                                  iv: Intervention, post: seq<Intervention>, m: Municipality)
    requires ImpactsInRange(pre + [iv] + post, |st.values|) && Inert(iv, m)
    ensures ImpactsInRange(pre + post, |st.values|)
    ensures ApplyCatalog(st, active, pre + [iv] + post, m) == ApplyCatalog(st, active, pre + post, m)
    decreases |post|
  {
    var n := |st.values|;
    ImpactsInRangeRemove(pre, iv, post, n);
    if post == [] {
      assert (pre + [iv] + post)[..|pre|] == pre;
      assert pre + post == pre;
    } else {
      var init := post[..|post| - 1];
      assert (pre + [iv] + post)[..|pre| + 1 + |init|] == pre + [iv] + init;
      assert (pre + post)[..|pre| + |init|] == pre + init;
      ImpactsInRangePrefix(pre + [iv] + post, n, |pre| + 1 + |init|);
      ApplyCatalogSkipsInert(st, active, pre, iv, init, m);
    }
  }

  /** The totals skip an inert intervention wherever it stands: it costs nothing. */
  lemma {:induction false} TotalsSkipInert(active: seq<int>, pre: seq<Intervention>, iv: Intervention,
                                           post: seq<Intervention>, m: Municipality)
    requires Inert(iv, m)
    ensures TotalsOf(active, pre + [iv] + post, m) == TotalsOf(active, pre + post, m)
    decreases |post|
  {
    if post == [] {
      assert (pre + [iv] + post)[..|pre|] == pre;
      assert pre + post == pre;
      assert InterventionCosts(iv, m) == ZeroCosts;
    } else {
      var init := post[..|post| - 1];
      assert (pre + [iv] + post)[..|pre| + 1 + |init|] == pre + [iv] + init;
      assert (pre + post)[..|pre| + |init|] == pre + init;
      TotalsSkipInert(active, pre, iv, init, m);
    }
  }

  /** An inert intervention (agricultural firms in a municipality with none), inserted at
      any position of the catalog, changes neither the values nor the totals, active or
      not. */
  lemma InertChangesNothing(active: seq<int>, cat: seq<Intervention>, i: nat, iv: Intervention, s: Store)
    requires i <= |cat|
    requires SimulationReady(s) && ImpactsInRange(cat[..i] + [iv] + cat[i..], |s.indicators|)
    requires Inert(iv, s.municipality)
    ensures ImpactsInRange(cat, |s.indicators|)
    ensures SimulationOf(active, cat[..i] + [iv] + cat[i..], s) == SimulationOf(active, cat, s)
  {
    assert cat[..i] + cat[i..] == cat;
    ApplyCatalogSkipsInert(Baseline(s), active, cat[..i], iv, cat[i..], s.municipality);
    TotalsSkipInert(active, cat[..i], iv, cat[i..], s.municipality);
  }

  /** With sound cost inputs the summed public and private costs are non-negative and
      neither exceeds the summed total cost. */
  lemma {:induction false} TotalsSplitBounded(active: seq<int>, cat: seq<Intervention>, m: Municipality)
    requires forall i :: 0 <= i < |cat| ==> CostInputsSound(cat[i], m)
    ensures var t := TotalsOf(active, cat, m);
      0 <= t.publicCost <= t.totalCost && 0 <= t.privateCost <= t.totalCost
    decreases |cat|
  {
    if cat != [] {
      var k := |cat| - 1;
      TotalsSplitBounded(active, cat[..k], m);
      CostsNonNegative(cat[k], m);
    }
  }

  /** A simulation that changes a single indicator's z-score upwards, where that indicator has
      a positive PCA weight, raises the raw and the normalised MCEI above the current ones. */
  lemma SimulationRaisesMcei(active: seq<int>, cat: seq<Intervention>, s: Store, k: nat, z: real)
    requires WellFormed(s) && ImpactsInRange(cat, |s.indicators|) && k < |s.indicators|
    requires SimulatedZScores(s, SimulatedValues(active, cat, s)) == StoredZScores(s.indicators)[k := z]
    requires z > s.indicators[k].zScore && LoadingWeight(s.pca.loadings[k], s.pca.variance) > 0.0
    ensures var now := SnapshotOf(s, StoredZScores(s.indicators));
            var sim := SimulationOf(active, cat, s).snapshot;
            sim.mceiRaw > now.mceiRaw && sim.mcei > now.mcei
  {
    var stored := StoredZScores(s.indicators);
    MceiRawRisesWithZScore(s, stored, k, z);
    MceiRisesWithZScore(s, stored, k, z);
  }
}
