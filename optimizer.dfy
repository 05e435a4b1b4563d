/**
 * The exhaustive budget optimizer (runOptimization and calculateAllOptimizationScenarios of
 * src/utils/calculations.js): every subset of the catalog is a bitmask; a first pass finds
 * the goal-programming ideals over the affordable masks, a second keeps the first mask with
 * the strictly best objective value, and the winner is simulated.
 */
module Optimizer {
  import opened Calibration
  import opened Costs
  import opened Simulation

  // ---------------------------------------------------------------------------
  // Masks
  // ---------------------------------------------------------------------------

  /** Math.pow(2, n): the number of subsets of n projects. */
  function Pow2(n: nat): (p: nat)
    ensures p >= 1
  {
    if n == 0 then 1 else 2 * Pow2(n - 1)
  }

  /** Bit i of the binary numeral x. */
  function BitOf(x: nat, i: nat): bool {
    if i == 0 then x % 2 == 1 else BitOf(x / 2, i - 1)
  }

  /** 2^32: JavaScript's shift operators see only the low 32 bits of their left operand. */
  const Int32Span: nat := 0x1_0000_0000

  /** (mask >> i) & 1: whether project i is in the subset.  The shift converts the mask to a
      signed 32-bit integer (its low 32 bits in two's complement) and reads the shift count
      modulo 32; since the arithmetic shift brings the sign bit down as bit 31, the test reads
      bit i mod 32 of mask mod 2^32. */
  function Bit(mask: nat, i: nat): bool {
    BitOf(mask % Int32Span, i % 32)
  }

  /** Every bit of the numeral 0 is clear. */
  lemma {:induction false} ZeroBitsClear(i: nat)
    ensures !BitOf(0, i)
  {
    if i > 0 {
      ZeroBitsClear(i - 1);
    }
  }

  /** Every bit of the empty mask is clear. */
  lemma ZeroMaskEmpty(i: nat)
    ensures !Bit(0, i)
  {
    ZeroBitsClear(i % 32);
  }

  lemma {:induction false} Pow2Monotone(a: nat, b: nat)
    requires a <= b
    ensures Pow2(a) <= Pow2(b)
    decreases b
  {
    if a < b {
      Pow2Monotone(a, b - 1);
    }
  }

  lemma {:induction false} Pow2Add(a: nat, b: nat)
    ensures Pow2(a + b) == Pow2(a) * Pow2(b)
    decreases a
  {
    if a > 0 {
      Pow2Add(a - 1, b);
    }
  }

  /** 2^32 subsets are exactly the span of a 32-bit integer. */
  lemma Pow2At32()
    ensures Pow2(32) == Int32Span
  {
    assert Pow2(4) == 16;
    Pow2Add(4, 4);
    Pow2Add(8, 8);
    Pow2Add(16, 16);
  }

  /** A non-zero numeral below 2^n has one of its n low bits set. */
  lemma {:induction false} NonZeroHasBit(x: nat, n: nat)
    requires 0 < x < Pow2(n)
    ensures exists i :: 0 <= i < n && BitOf(x, i)
  {
    if x % 2 == 1 {
      assert BitOf(x, 0);
    } else {
      assert n > 0;
      NonZeroHasBit(x / 2, n - 1);
      var i :| 0 <= i < n - 1 && BitOf(x / 2, i);
      assert BitOf(x, i + 1);
    }
  }

  /** For a catalog of at most 32 projects, a non-zero mask below 2^n selects one of them:
      the enumeration then visits every non-empty subset under a non-zero mask. */
  lemma NonZeroMaskHasBit(mask: nat, n: nat)
    requires 0 < mask < Pow2(n) && n <= 32
    ensures exists i :: 0 <= i < n && Bit(mask, i)
  {
    Pow2Monotone(n, 32);
    Pow2At32();
    NonZeroHasBit(mask, n);
    var i :| 0 <= i < n && BitOf(mask, i);
    assert Bit(mask, i);
  }

  /** Past 32 projects the shift wraps: mask 1 selects project 32 together with project 0,
      and mask 2^32 selects no project at all, so the enumeration no longer visits each
      subset once. */
  lemma ShiftWrapsAt32()
    ensures Bit(1, 0) && Bit(1, 32)
    ensures forall i: nat :: !Bit(Int32Span, i)
  {
    forall i: nat
      ensures !Bit(Int32Span, i)
    {
      ZeroBitsClear(i % 32);
    }
  }

  /** The cost of every project, in catalog order (projectCosts). */
  function CostsOf(cat: seq<Intervention>, m: Municipality): (costs: seq<CostBenefit>)
    ensures |costs| == |cat|
    ensures forall i :: 0 <= i < |cat| ==> costs[i] == InterventionCosts(cat[i], m)
  {
    seq(|cat|, i requires 0 <= i < |cat| => InterventionCosts(cat[i], m))
  }

  /** The four running totals of a subset. */
  datatype Sums = Sums(pub: int, env: int, soc: int, npv: int)

  /** Totals of the projects of the mask among the first i. */
  function MaskSums(costs: seq<CostBenefit>, mask: nat, i: nat): Sums
    requires i <= |costs|
  {
    if i == 0 then Sums(0, 0, 0, 0)
    else
      var prev := MaskSums(costs, mask, i - 1);
      var c := costs[i - 1];
      if Bit(mask, i - 1) then Sums(prev.pub + c.publicCost, prev.env + c.envBenefit, prev.soc + c.socBenefit, prev.npv + c.npv)
      else prev
  }

  /** Totals of a whole subset. */
  function SubsetSums(costs: seq<CostBenefit>, mask: nat): Sums {
    MaskSums(costs, mask, |costs|)
  }

  /** The ids of the projects of the mask among the first i, in catalog order. */
  function MaskIds(cat: seq<Intervention>, mask: nat, i: nat): seq<int>
    requires i <= |cat|
  {
    if i == 0 then []
    else MaskIds(cat, mask, i - 1) + (if Bit(mask, i - 1) then [cat[i - 1].id] else [])
  }

  /** A subset is affordable when its public cost is within the budget. */
  predicate Feasible(costs: seq<CostBenefit>, budget: real, mask: nat) {
    SubsetSums(costs, mask).pub as real <= budget
  }

  /** The inner loop of both passes: the ids and the four totals of one subset. */
  method SumMask(cat: seq<Intervention>, costs: seq<CostBenefit>, combo: nat) returns (active: seq<int>, sums: Sums)
    requires |costs| == |cat|
    ensures active == MaskIds(cat, combo, |cat|)
    ensures sums == SubsetSums(costs, combo)
  {
    active := [];
    var pubCost, totEnv, totSoc, totNpv := 0, 0, 0, 0;
    for i := 0 to |cat|
      invariant active == MaskIds(cat, combo, i)
      invariant Sums(pubCost, totEnv, totSoc, totNpv) == MaskSums(costs, combo, i)
    {
      if Bit(combo, i) {
        active := active + [cat[i].id];
        pubCost := pubCost + costs[i].publicCost;
        totEnv := totEnv + costs[i].envBenefit;
        totSoc := totSoc + costs[i].socBenefit;
        totNpv := totNpv + costs[i].npv;
      }
    }
    sums := Sums(pubCost, totEnv, totSoc, totNpv);
  }

  // ---------------------------------------------------------------------------
  // Phase 1: goal-programming ideals
  // ---------------------------------------------------------------------------

  datatype Ideals = Ideals(env: int, soc: int, npv: int)

  /** Running maxima, from 0, of each benefit over the affordable masks below c. */
  function RunningIdeals(costs: seq<CostBenefit>, budget: real, c: nat): Ideals {
    if c == 0 then Ideals(0, 0, 0)
    else
      var prev := RunningIdeals(costs, budget, c - 1);
      var t := SubsetSums(costs, c - 1);
      if !Feasible(costs, budget, c - 1) then prev
      else Ideals(
        if t.env > prev.env then t.env else prev.env,
        if t.soc > prev.soc then t.soc else prev.soc,
        if t.npv > prev.npv then t.npv else prev.npv)
  }

  /** The ideals over every subset of the catalog. */
  function IdealsOf(costs: seq<CostBenefit>, budget: real): Ideals {
    RunningIdeals(costs, budget, Pow2(|costs|))
  }

  /** Each ideal is the larger of 0 and the best value of its benefit over the affordable
      masks below c: it bounds every one of them and is 0 or attained by one. */
  lemma {:induction false} RunningIdealsAreMaxima(costs: seq<CostBenefit>, budget: real, c: nat)
    ensures var id := RunningIdeals(costs, budget, c);
      && id.env >= 0 && id.soc >= 0 && id.npv >= 0
      && (forall m :: 0 <= m < c && Feasible(costs, budget, m) ==>
            SubsetSums(costs, m).env <= id.env && SubsetSums(costs, m).soc <= id.soc &&
            SubsetSums(costs, m).npv <= id.npv)
      && (id.env == 0 || exists m :: 0 <= m < c && Feasible(costs, budget, m) && SubsetSums(costs, m).env == id.env)
      && (id.soc == 0 || exists m :: 0 <= m < c && Feasible(costs, budget, m) && SubsetSums(costs, m).soc == id.soc)
      && (id.npv == 0 || exists m :: 0 <= m < c && Feasible(costs, budget, m) && SubsetSums(costs, m).npv == id.npv)
  {
    if c > 0 {
      RunningIdealsAreMaxima(costs, budget, c - 1);
    }
  }

  /** Phase 1 of runOptimization: the ideals, by enumerating every mask. */
  method FindIdeals(cat: seq<Intervention>, costs: seq<CostBenefit>, budget: real) returns (ideals: Ideals)
    requires |costs| == |cat|
    ensures ideals == IdealsOf(costs, budget)
  {
    var allCombinations := Pow2(|cat|);
    var idealEnv, idealSoc, idealNpv := 0, 0, 0;
    for combo := 0 to allCombinations
      invariant Ideals(idealEnv, idealSoc, idealNpv) == RunningIdeals(costs, budget, combo)
    {
      var _, t := SumMask(cat, costs, combo);
      if t.pub as real <= budget {
        if t.env > idealEnv { idealEnv := t.env; }
        if t.soc > idealSoc { idealSoc := t.soc; }
        if t.npv > idealNpv { idealNpv := t.npv; }
      }
    }
    ideals := Ideals(idealEnv, idealSoc, idealNpv);
  }

  // ---------------------------------------------------------------------------
  // Objectives
  // ---------------------------------------------------------------------------

  datatype Objective = BestOverall | MaxEnvironmental | MaxSocial | MaxNpv | OtherObjective(name: string)

  /** (total - ideal) / ideal, or 0 when the ideal is not positive. */
  function RelativeDeviation(total: int, ideal: int): real {
    if ideal > 0 then (total - ideal) as real / ideal as real else 0.0
  }

  /** The value an objective gives a subset: the weighted relative deviation from the ideals
      for goal programming, one benefit for the three linear objectives, 0 otherwise. */
  function ObjectiveValue(obj: Objective, w: GoalWeights, ideals: Ideals, t: Sums): real {
    match obj
    case BestOverall =>
      w.environmental * RelativeDeviation(t.env, ideals.env) +
      w.social * RelativeDeviation(t.soc, ideals.soc) +
      w.npv * RelativeDeviation(t.npv, ideals.npv)
    case MaxEnvironmental => t.env as real
    case MaxSocial => t.soc as real
    case MaxNpv => t.npv as real
    case OtherObjective(_) => 0.0
  }

  /** A deviation from an ideal that bounds the total is never positive; a non-positive ideal
      gives no deviation at all. */
  lemma DeviationNonPositive(total: int, ideal: int)
    requires total <= ideal
    ensures RelativeDeviation(total, ideal) <= 0.0
    ensures ideal <= 0 ==> RelativeDeviation(total, ideal) == 0.0
  {
    if ideal > 0 {
      var q := (total - ideal) as real / ideal as real;
      assert q * ideal as real == (total - ideal) as real;
    }
  }

  lemma WeightedNonPositive(w: real, d: real)
    requires w >= 0.0 && d <= 0.0
    ensures w * d <= 0.0
  {
    assert w * (-d) >= 0.0;
  }

  /** With non-negative weights, every affordable subset scores at most 0 under goal
      programming: no subset does better than all its ideals at once. */
  lemma GoalScoreNonPositive(costs: seq<CostBenefit>, budget: real, w: GoalWeights, mask: nat)
    requires w.environmental >= 0.0 && w.social >= 0.0 && w.npv >= 0.0
    requires mask < Pow2(|costs|) && Feasible(costs, budget, mask)
    ensures ObjectiveValue(BestOverall, w, IdealsOf(costs, budget), SubsetSums(costs, mask)) <= 0.0
  {
    var id := IdealsOf(costs, budget);
    var t := SubsetSums(costs, mask);
    RunningIdealsAreMaxima(costs, budget, Pow2(|costs|));
    DeviationNonPositive(t.env, id.env);
    DeviationNonPositive(t.soc, id.soc);
    DeviationNonPositive(t.npv, id.npv);
    WeightedNonPositive(w.environmental, RelativeDeviation(t.env, id.env));
    WeightedNonPositive(w.social, RelativeDeviation(t.soc, id.soc));
    WeightedNonPositive(w.npv, RelativeDeviation(t.npv, id.npv));
  }

  // ---------------------------------------------------------------------------
  // Phase 2: the winning mask
  // ---------------------------------------------------------------------------

  /** The state of the selection loop: whether an affordable mask was seen, the best value
      (bestValue, -Infinity until found) and the mask that reached it. */
  datatype Choice = Choice(found: bool, best: real, mask: nat)

  /** The objective value of a mask. */
  function MaskValue(costs: seq<CostBenefit>, obj: Objective, w: GoalWeights, ideals: Ideals, mask: nat): real {
    ObjectiveValue(obj, w, ideals, SubsetSums(costs, mask))
  }

  /** The selection loop over masks 0..c-1: an affordable mask replaces the best so far only
      when its value is strictly greater. */
  function Select(costs: seq<CostBenefit>, budget: real, obj: Objective, w: GoalWeights, ideals: Ideals, c: nat): Choice {
    if c == 0 then Choice(false, 0.0, 0)
    else
      var prev := Select(costs, budget, obj, w, ideals, c - 1);
      var v := MaskValue(costs, obj, w, ideals, c - 1);
      if Feasible(costs, budget, c - 1) && (!prev.found || v > prev.best) then Choice(true, v, c - 1)
      else prev
  }

  /** The winner, stated without the loop: an affordable mask whose value no affordable mask
      exceeds and every lower affordable mask falls short of. */
  predicate IsWinner(costs: seq<CostBenefit>, budget: real, obj: Objective, w: GoalWeights, ideals: Ideals, c: nat, mask: nat) {
    && mask < c
    && Feasible(costs, budget, mask)
    && (forall m :: 0 <= m < c && Feasible(costs, budget, m) ==>
          MaskValue(costs, obj, w, ideals, m) <= MaskValue(costs, obj, w, ideals, mask))
    && (forall m :: 0 <= m < mask && Feasible(costs, budget, m) ==>
          MaskValue(costs, obj, w, ideals, m) < MaskValue(costs, obj, w, ideals, mask))
  }

  /** The loop finds a mask exactly when some mask below c is affordable, and the mask it
      finds is the one and only winner: optimal, with ties going to the lowest mask. */
  lemma {:induction false} SelectIsWinner(costs: seq<CostBenefit>, budget: real, obj: Objective, w: GoalWeights, ideals: Ideals, c: nat)
    ensures var ch := Select(costs, budget, obj, w, ideals, c);
      && (ch.found <==> exists m :: 0 <= m < c && Feasible(costs, budget, m))
      && (ch.found ==> ch.best == MaskValue(costs, obj, w, ideals, ch.mask))
      && (ch.found ==> forall mask :: IsWinner(costs, budget, obj, w, ideals, c, mask) <==> mask == ch.mask)
  {
    if c > 0 {
      SelectIsWinner(costs, budget, obj, w, ideals, c - 1);
      var ch := Select(costs, budget, obj, w, ideals, c);
      var prev := Select(costs, budget, obj, w, ideals, c - 1);
      if ch.found {
        assert IsWinner(costs, budget, obj, w, ideals, c, ch.mask) by {
          if prev.found {
            assert IsWinner(costs, budget, obj, w, ideals, c - 1, prev.mask);
          }
        }
        forall mask: nat | IsWinner(costs, budget, obj, w, ideals, c, mask)
          ensures mask == ch.mask
        {
          if mask != ch.mask {
            assert false;
          }
        }
      }
    }
  }

  /** Phase 2 of runOptimization: the winning mask's ids, by enumerating every mask. */
  method SelectBest(cat: seq<Intervention>, costs: seq<CostBenefit>, budget: real, obj: Objective, w: GoalWeights, ideals: Ideals)
    returns (found: bool, bestValue: real, bestCombo: seq<int>)
    requires |costs| == |cat|
    ensures var ch := Select(costs, budget, obj, w, ideals, Pow2(|cat|));
      && found == ch.found
      && (found ==> bestValue == ch.best && bestCombo == MaskIds(cat, ch.mask, |cat|))
      && (!found ==> bestCombo == [])
  {
    var allCombinations := Pow2(|cat|);
    found, bestValue, bestCombo := false, 0.0, [];
    ghost var bestMask := 0;
    for combo := 0 to allCombinations
      invariant Choice(found, if found then bestValue else 0.0, if found then bestMask else 0) ==
                Select(costs, budget, obj, w, ideals, combo)
      invariant found ==> bestCombo == MaskIds(cat, bestMask, |cat|)
      invariant !found ==> bestCombo == []
    {
      var active, t := SumMask(cat, costs, combo);
      if t.pub as real > budget {
        continue;
      }
      var currentValue := ObjectiveValue(obj, w, ideals, t);
      if !found || currentValue > bestValue {
        found, bestValue, bestCombo := true, currentValue, active;
        bestMask := combo;
      }
    }
  }

  // ---------------------------------------------------------------------------
  // runOptimization
  // ---------------------------------------------------------------------------

  /** interventions.filter(int => ids.includes(int.id)): the catalog entries whose id is
      listed, in catalog order. */
  function Filter(cat: seq<Intervention>, ids: seq<int>): (r: seq<Intervention>)
    ensures forall iv :: iv in r <==> iv in cat && iv.id in ids
    ensures |r| <= |cat|
  {
    if cat == [] then []
    else
      var prev := Filter(cat[..|cat| - 1], ids);
      var iv := cat[|cat| - 1];
      assert cat == cat[..|cat| - 1] + [iv];
      if iv.id in ids then prev + [iv] else prev
  }

  /** pos lists, for each entry of r, a position of cat holding it, strictly increasing. */
  predicate PositionsIn(pos: seq<int>, r: seq<Intervention>, cat: seq<Intervention>) {
    && |pos| == |r|
    && (forall k :: 0 <= k < |r| ==> 0 <= pos[k] < |cat| && cat[pos[k]] == r[k])
    && (forall k :: 0 < k < |r| ==> pos[k - 1] < pos[k])
  }

  /** Positions in a prefix of the catalog, extended by the catalog's last entry. */
  lemma PositionsExtend(pos: seq<int>, prev: seq<Intervention>, cat: seq<Intervention>)
    requires |cat| > 0 && PositionsIn(pos, prev, cat[..|cat| - 1])
    ensures PositionsIn(pos, prev, cat)
    ensures PositionsIn(pos + [|cat| - 1], prev + [cat[|cat| - 1]], cat)
  {
    var init := cat[..|cat| - 1];
    assert forall k :: 0 <= k < |prev| ==> cat[pos[k]] == init[pos[k]];
  }

  /** The selected projects keep catalog order: they sit at strictly increasing positions of
      the catalog. */
  lemma {:induction false} FilterInOrder(cat: seq<Intervention>, ids: seq<int>)
    ensures exists pos :: PositionsIn(pos, Filter(cat, ids), cat)
    decreases |cat|
  {
    if cat == [] {
      assert PositionsIn([], Filter(cat, ids), cat);
    } else {
      var init := cat[..|cat| - 1];
      FilterInOrder(init, ids);
      var pos :| PositionsIn(pos, Filter(init, ids), init);
      PositionsExtend(pos, Filter(init, ids), cat);
      if cat[|cat| - 1].id in ids {
        assert PositionsIn(pos + [|cat| - 1], Filter(cat, ids), cat);
      } else {
        assert PositionsIn(pos, Filter(cat, ids), cat);
      }
    }
  }

  /** What runOptimization returns: the simulation of the winning subset with its projects,
      or the fixed empty record when the winner is the empty subset or nothing is
      affordable. */
  datatype OptimizationResult =
    | EmptySelection(domains: map<Domain, real>, mcei: real, totals: EmptyTotals, selectedProjects: seq<Intervention>)
    | Selected(sim: SimulationResult, selectedProjects: seq<Intervention>)

  /** The totals object of the empty record: six fields, without privateCost. */
  datatype EmptyTotals = EmptyTotals(totalCost: int, publicCost: int, revenue: int, envBenefit: int, socBenefit: int, npv: int)

  /** The fixed record for an empty winner: no domains, an MCEI of 0, zero totals and no
      projects. */
  const EmptyRecord: OptimizationResult := EmptySelection(map[], 0.0, EmptyTotals(0, 0, 0, 0, 0, 0), [])

  function OptimizationOf(budget: real, obj: Objective, cat: seq<Intervention>, s: Store): (r: OptimizationResult)
    requires SimulationReady(s) && ImpactsInRange(cat, |s.indicators|)
    ensures r.EmptySelection? ==> r == EmptyRecord
    ensures r.Selected? ==> |r.selectedProjects| <= |cat|
  {
    var costs := CostsOf(cat, s.municipality);
    var ch := Select(costs, budget, obj, s.weights, IdealsOf(costs, budget), Pow2(|cat|));
    var ids := if ch.found then MaskIds(cat, ch.mask, |cat|) else [];
    if |ids| > 0 then Selected(SimulationOf(ids, cat, s), Filter(cat, ids)) else EmptyRecord
  }

  method RunOptimization(budget: real, objective: Objective, cat: seq<Intervention>, s: Store)
    returns (r: OptimizationResult)
    requires SimulationReady(s) && ImpactsInRange(cat, |s.indicators|)
    ensures r == OptimizationOf(budget, objective, cat, s)
  {
    var projectCosts := CostsOf(cat, s.municipality);
    var ideals := FindIdeals(cat, projectCosts, budget);
    var _, _, bestCombo := SelectBest(cat, projectCosts, budget, objective, s.weights, ideals);
    if |bestCombo| > 0 {
      var sim := RunSimulation(bestCombo, cat, s);
      r := Selected(sim, Filter(cat, bestCombo));
    } else {
      r := EmptySelection(map[], 0.0, EmptyTotals(0, 0, 0, 0, 0, 0), []);
    }
  }

  // ---------------------------------------------------------------------------
  // Properties of the optimizer
  // ---------------------------------------------------------------------------

  /** With distinct ids, project k's id is among the mask's ids for the first n projects
      exactly when k < n and bit k is set. */
  lemma {:induction false} MaskIdsMembership(cat: seq<Intervention>, mask: nat, n: nat, k: nat)
    requires IdsDistinct(cat) && n <= |cat| && k < |cat|
    ensures cat[k].id in MaskIds(cat, mask, n) <==> k < n && Bit(mask, k)
  {
    if n > 0 {
      MaskIdsMembership(cat, mask, n - 1, k);
      assert cat[k].id == cat[n - 1].id <==> k == n - 1 by {
        if k < n - 1 {
          assert cat[k].id != cat[n - 1].id;
        } else if k > n - 1 {
          assert cat[n - 1].id != cat[k].id;
        }
      }
    }
  }

  /** The simulated totals of a mask's ids are the optimizer's own sums for that mask. */
  lemma {:induction false} TotalsOfMask(cat: seq<Intervention>, m: Municipality, mask: nat, i: nat)
    requires IdsDistinct(cat) && i <= |cat|
    ensures var t := TotalsOf(MaskIds(cat, mask, |cat|), cat[..i], m);
            var u := MaskSums(CostsOf(cat, m), mask, i);
            t.publicCost == u.pub && t.envBenefit == u.env && t.socBenefit == u.soc && t.npv == u.npv
  {
    if i > 0 {
      assert cat[..i][..i - 1] == cat[..i - 1];
      assert cat[..i][i - 1] == cat[i - 1];
      TotalsOfMask(cat, m, mask, i - 1);
      MaskIdsMembership(cat, mask, |cat|, i - 1);
    }
  }

  /** The subset the optimizer reports is affordable: its simulated public cost is within
      the budget, and its benefits are those the selection compared. */
  lemma SelectedWithinBudget(budget: real, obj: Objective, cat: seq<Intervention>, s: Store)
    requires SimulationReady(s) && ImpactsInRange(cat, |s.indicators|) && IdsDistinct(cat)
    ensures var r := OptimizationOf(budget, obj, cat, s);
      r.Selected? ==> r.sim.totals.publicCost as real <= budget
  {
    var costs := CostsOf(cat, s.municipality);
    var ideals := IdealsOf(costs, budget);
    var ch := Select(costs, budget, obj, s.weights, ideals, Pow2(|cat|));
    SelectIsWinner(costs, budget, obj, s.weights, ideals, Pow2(|cat|));
    if ch.found {
      assert IsWinner(costs, budget, obj, s.weights, ideals, Pow2(|cat|), ch.mask);
      TotalsOfMask(cat, s.municipality, ch.mask, |cat|);
      assert cat[..|cat|] == cat;
    }
  }

  /** A mask collects no ids among the first i projects exactly when none of their bits is
      set. */
  lemma {:induction false} MaskIdsEmpty(cat: seq<Intervention>, mask: nat, i: nat)
    requires i <= |cat|
    ensures MaskIds(cat, mask, i) == [] <==> forall j :: 0 <= j < i ==> !Bit(mask, j)
  {
    if i > 0 {
      MaskIdsEmpty(cat, mask, i - 1);
      if Bit(mask, i - 1) {
        assert |MaskIds(cat, mask, i)| > 0;
      }
    }
  }

  lemma ZeroMaskNoIds(cat: seq<Intervention>, i: nat)
    requires i <= |cat|
    ensures MaskIds(cat, 0, i) == []
  {
    forall j | 0 <= j < i
      ensures !Bit(0, j)
    {
      ZeroMaskEmpty(j);
    }
    MaskIdsEmpty(cat, 0, i);
  }

  /** With non-negative public costs, a subset costs at least as much as any one member. */
  lemma {:induction false} MaskPubAtLeast(costs: seq<CostBenefit>, mask: nat, i: nat, j: nat)
    requires i <= |costs| && j < |costs|
    requires forall k :: 0 <= k < |costs| ==> costs[k].publicCost >= 0
    ensures MaskSums(costs, mask, i).pub >= 0
    ensures j < i && Bit(mask, j) ==> MaskSums(costs, mask, i).pub >= costs[j].publicCost
  {
    if i > 0 {
      MaskPubAtLeast(costs, mask, i - 1, j);
    }
  }

  /** When every project has a public cost of at least 1, a budget of 0 affords only masks
      that select no project, so every objective returns the empty record. */
  lemma ZeroBudgetSelectsNothing(obj: Objective, cat: seq<Intervention>, s: Store)
    requires SimulationReady(s) && ImpactsInRange(cat, |s.indicators|)
    requires forall i :: 0 <= i < |cat| ==> InterventionCosts(cat[i], s.municipality).publicCost >= 1
    ensures OptimizationOf(0.0, obj, cat, s) == EmptyRecord
  {
    var costs := CostsOf(cat, s.municipality);
    var ideals := IdealsOf(costs, 0.0);
    var ch := Select(costs, 0.0, obj, s.weights, ideals, Pow2(|cat|));
    SelectIsWinner(costs, 0.0, obj, s.weights, ideals, Pow2(|cat|));
    if ch.found {
      assert IsWinner(costs, 0.0, obj, s.weights, ideals, Pow2(|cat|), ch.mask);
      if j :| 0 <= j < |cat| && Bit(ch.mask, j) {
        MaskPubAtLeast(costs, ch.mask, |costs|, j);
        assert false;
      }
      MaskIdsEmpty(cat, ch.mask, |cat|);
    }
  }

  /** The three linear objectives ignore the ideals. */
  predicate Linear(obj: Objective) {
    obj == MaxEnvironmental || obj == MaxSocial || obj == MaxNpv
  }

  /** For a linear objective, raising the budget never lowers the best value: whatever was
      affordable stays affordable. */
  lemma LinearObjectiveMonotone(costs: seq<CostBenefit>, b1: real, b2: real, obj: Objective, w: GoalWeights, id1: Ideals, id2: Ideals)
    requires Linear(obj) && b1 <= b2
    ensures var ch1 := Select(costs, b1, obj, w, id1, Pow2(|costs|));
            var ch2 := Select(costs, b2, obj, w, id2, Pow2(|costs|));
            ch1.found ==> ch2.found && ch1.best <= ch2.best
  {
    var n := Pow2(|costs|);
    var ch1 := Select(costs, b1, obj, w, id1, n);
    var ch2 := Select(costs, b2, obj, w, id2, n);
    SelectIsWinner(costs, b1, obj, w, id1, n);
    SelectIsWinner(costs, b2, obj, w, id2, n);
    if ch1.found {
      assert IsWinner(costs, b1, obj, w, id1, n, ch1.mask);
      assert Feasible(costs, b2, ch1.mask);
      assert IsWinner(costs, b2, obj, w, id2, n, ch2.mask);
      assert MaskValue(costs, obj, w, id1, ch1.mask) == MaskValue(costs, obj, w, id2, ch1.mask);
    }
  }

  /** Goal programming is not monotone in the budget: a larger budget raises the ideals, so
      the best score can fall.  Project A costs 5 and yields 10 of each benefit; project B
      costs 10 and yields 100 environmental benefit only.  At budget 5 choosing A meets every
      ideal (score 0); at budget 10 the environmental ideal becomes 100 and the best score
      is A's -0.9. */
  lemma GoalProgrammingNotMonotone()
    ensures var costs := [CostBenefit(5, 5, 0, 0, 10, 10, 10), CostBenefit(10, 10, 0, 0, 100, 0, 0)];
            var w := GoalWeights(1.0, 2.0, 2.0);
            var ch1 := Select(costs, 5.0, BestOverall, w, IdealsOf(costs, 5.0), Pow2(|costs|));
            var ch2 := Select(costs, 10.0, BestOverall, w, IdealsOf(costs, 10.0), Pow2(|costs|));
            ch1.found && ch2.found && ch1.best == 0.0 && ch2.best == -0.9 && ch1.best > ch2.best
  {
    var costs := [CostBenefit(5, 5, 0, 0, 10, 10, 10), CostBenefit(10, 10, 0, 0, 100, 0, 0)];
    assert SubsetSums(costs, 0) == Sums(0, 0, 0, 0);
    assert SubsetSums(costs, 1) == Sums(5, 10, 10, 10);
    assert SubsetSums(costs, 2) == Sums(10, 100, 0, 0);
    assert SubsetSums(costs, 3) == Sums(15, 110, 10, 10);
    assert Pow2(|costs|) == 4;
    var w := GoalWeights(1.0, 2.0, 2.0);
    var id1, id2 := Ideals(10, 10, 10), Ideals(100, 10, 10);
    assert RunningIdeals(costs, 5.0, 1) == Ideals(0, 0, 0);
    assert RunningIdeals(costs, 5.0, 2) == id1;
    assert RunningIdeals(costs, 5.0, 3) == id1;
    assert RunningIdeals(costs, 5.0, 4) == id1;
    assert RunningIdeals(costs, 10.0, 1) == Ideals(0, 0, 0);
    assert RunningIdeals(costs, 10.0, 2) == id1;
    assert RunningIdeals(costs, 10.0, 3) == id2;
    assert RunningIdeals(costs, 10.0, 4) == id2;
    assert Select(costs, 5.0, BestOverall, w, id1, 2) == Choice(true, 0.0, 1);
    assert Select(costs, 5.0, BestOverall, w, id1, 4) == Choice(true, 0.0, 1);
    assert Select(costs, 10.0, BestOverall, w, id2, 2) == Choice(true, -0.9, 1);
    assert Select(costs, 10.0, BestOverall, w, id2, 4) == Choice(true, -0.9, 1);
  }

  // ---------------------------------------------------------------------------
  // calculateAllOptimizationScenarios
  // ---------------------------------------------------------------------------

  const Objectives: seq<Objective> := [BestOverall, MaxEnvironmental, MaxSocial, MaxNpv]

  datatype Scenario = Scenario(objective: Objective, result: OptimizationResult)

  /** The four scenarios, one per named objective, in the fixed order. */
  function ScenariosOf(budget: real, cat: seq<Intervention>, s: Store): (r: seq<Scenario>)
    requires SimulationReady(s) && ImpactsInRange(cat, |s.indicators|)
    ensures |r| == |Objectives|
  {
    seq(|Objectives|, k requires 0 <= k < |Objectives| => Scenario(Objectives[k], OptimizationOf(budget, Objectives[k], cat, s)))
  }

  method CalculateAllOptimizationScenarios(budget: real, cat: seq<Intervention>, s: Store)
    returns (scenarios: seq<Scenario>)
    requires SimulationReady(s) && ImpactsInRange(cat, |s.indicators|)
    ensures scenarios == ScenariosOf(budget, cat, s)
  {
    ghost var expected := ScenariosOf(budget, cat, s);
    scenarios := [];
    for k := 0 to |Objectives|
      invariant scenarios == expected[..k]
    {
      var result := RunOptimization(budget, Objectives[k], cat, s);
      assert expected[..k + 1] == expected[..k] + [Scenario(Objectives[k], result)];
      scenarios := scenarios + [Scenario(Objectives[k], result)];
    }
  }

  /** There are exactly four scenarios, best overall, environmental, social and NPV in that
      order, each the optimizer's result for its own objective. */
  lemma ScenariosInOrder(budget: real, cat: seq<Intervention>, s: Store)
    requires SimulationReady(s) && ImpactsInRange(cat, |s.indicators|)
    ensures var r := ScenariosOf(budget, cat, s);
      && |r| == 4
      && r[0].objective == BestOverall && r[1].objective == MaxEnvironmental
      && r[2].objective == MaxSocial && r[3].objective == MaxNpv
      && forall k :: 0 <= k < 4 ==> r[k].result == OptimizationOf(budget, r[k].objective, cat, s)
  {
  }
}
