# Taurasi decision-support engine: a verified model

This project models the computational core of the Taurasi circular-economy decision-support
app. The app scores a municipality on a composite index, the MCEI, and simulates how capital
projects ("interventions") would move that score. It also picks the budget-feasible set of
projects that best serves one of four objectives. The model covers three source files:

- `src/utils/calculations.js`, the engine:
  - polarity-signed z-scores, PCA-weighted contributions, six domain scores and the MCEI,
    each min-max normalised against a benchmark;
  - the cost-benefit figures of an intervention;
  - the what-if simulation of a set of active interventions;
  - the exhaustive optimizer over all 2^N subsets, in two passes. Its bit test
    `(combo >> i) & 1` is modelled with JavaScript's 32-bit shift semantics, so with more
    than 32 interventions the masks wrap as they do in the app;
  - the four-scenario wrapper.
- `src/data/taurasi.js`, the shipped calibration for Taurasi (2022). It is written as Dafny
  constants, and lemmas prove that it meets every condition the engine relies on.
- `src/components/SimulatedDataForm.jsx`, the manual what-if form. It holds its own copy of
  the scoring pipeline, which caps z-scores at ±6 and clips normalised scores to [0, 100].

Numbers are exact `real`s. `Math.round(x)` is `(x + 0.5).Floor`, and rounded money figures
are `int`s. The engine reads its calibration from module-level constants; here those
constants are bundled in a `Calibration.Store` value that every operation takes as a
parameter. Every generic property therefore holds for any store that meets the stated
predicates, and `Taurasi.Shipped` is proved to meet them. The string-typed driver, impact
type and objective become datatypes with an `Other…` case, so the JavaScript `default:`
branches are modelled too: an unknown driver gives 0, an unknown impact type does nothing,
and an unknown objective scores 0.

Imperative code stays imperative. The impact loop of `runSimulation` updates an `array`
in place. The contribution, domain, totals, ideal-search and selection loops are `method`s
with loop invariants. Each is proved equal to a specification function, and the properties
are proved about that function.

Files:
- `wrappers.dfy`: `Option`.
- `calibration.dfy`: the data model and the well-formedness predicates.
- `scoring.dfy`: the scoring pipeline and `calculateCurrentState`.
- `costs.dfy`: `getDriverValue` and `calculateInterventionCosts`.
- `simulation.dfy`: `runSimulation`.
- `optimizer.dfy`: `runOptimization` and `calculateAllOptimizationScenarios`.
- `taurasi.dfy`: the shipped calibration and its proofs.
- `simulated_form.dfy`: the form.

## Model

| member | source | states |
|---|---|---|
| Scoring.Clamp | src/components/SimulatedDataForm.jsx:10-11 | pulling x back into [lo, hi] leaves it in [lo, hi], is x inside the range, and is the nearer bound outside it |
| Scoring.NormalizeMinMax | src/utils/calculations.js:14-19 | a raw value at L normalises to 0 and one at U to 100, and the map is inverted by `L + norm/100·(U−L)` |
| Scoring.NormalizeUnclipped | src/utils/calculations.js:14-19 | the result is not clipped: for L < U it is below 0 exactly when raw < L, above 100 exactly when raw > U, and in [0, 100] exactly when raw is in [L, U] |
| Scoring.NormalizeMonotone | src/utils/calculations.js:14-19 | for L < U, a larger raw value gets a strictly larger normalised value |
| Scoring.ZScore | src/utils/calculations.js:24-37 | exactly 0 when std is below the 1e-7 guard; otherwise z·std equals polarity·(v − mean), where v is the value clamped only when both bounds are given |
| Scoring.ZScoreClampedBetween | src/utils/calculations.js:29-35 | with both bounds given, in either order (min > max pins the value to min), the z-score lies between polarity·(min−mean)/std and polarity·(max−mean)/std |
| Scoring.ZScoreSign | src/utils/calculations.js:35 | with polarity +1 the z-score is positive exactly above the mean, and with polarity −1 exactly below it |
| Scoring.ZScoreUncapped | src/utils/calculations.js:24-37 | the engine has no cap: a value seven standard deviations on the good side scores 7 |
| Scoring.IndicatorContribution | src/utils/calculations.js:43-49 | the three-step accumulation loop returns z·Σ_f loading[f]·variance[f] |
| Scoring.SumDomain | src/utils/calculations.js:60-69 | the inner loop over one domain's ids returns the sum of those indicators' contributions |
| Scoring.CalculateDomains | src/utils/calculations.js:55-74 | every domain maps to the sum of the contributions of its `DOMAIN_INDICATORS` ids |
| Scoring.DomainScoresTotal | src/utils/calculations.js:59-71 | the domain map has all six domains, each holding its own contribution sum |
| Scoring.SumInDomainOrder | src/utils/calculations.js:80 | the reduce over the domain values in key order adds up exactly the six domain scores |
| Scoring.CalculateMcei | src/utils/calculations.js:79-81 | the raw MCEI is GE + SM + BRS + WM + CW + DECI |
| Scoring.NormalizedDomainsAt | src/utils/calculations.js:94-101 | each domain's normalised score uses that domain's own L and U |
| Scoring.SnapshotFields | src/utils/calculations.js:90-110 | in a snapshot, each raw domain is its contribution sum, the raw MCEI is the sum of the six, and each normalised value is its raw value on its own benchmark's scale |
| Scoring.ScoreZScores | src/utils/calculations.js:239-252 | scoring a z-score vector yields the snapshot of domains, MCEI and their normalisations |
| Scoring.StoredZScores | src/utils/calculations.js:88 | the vector holds each indicator's precomputed zScore, in order |
| Scoring.CalculateCurrentState | src/utils/calculations.js:86-111 | the current state is the snapshot of the stored z-scores; nothing is recomputed |
| Scoring.DomainSumUpdate | src/utils/calculations.js:60-69 | changing indicator k's z-score moves a domain's sum by the change in k's contribution, once for each time id k + 1 is listed under that domain |
| Scoring.MceiRawSum | src/utils/calculations.js:79-81 | a snapshot's raw MCEI is the sum of the six domain sums |
| Scoring.RawMceiUpdate | src/utils/calculations.js:55-81 | changing indicator k's z-score moves the sum of the six domain sums by the change in k's contribution, once for each listing of id k + 1 across the domains |
| Scoring.MceiRawUpdate | src/utils/calculations.js:55-90 | the same for the raw MCEI of the snapshot |
| Scoring.OccurrencesAscending | src/utils/calculations.js:60-69 | in a strictly ascending id list, an id occurs once when it is listed and never otherwise |
| Scoring.ListedIff | src/utils/calculations.js:58-72 | when the domain lists partition the ids, id k + 1 is listed under a domain exactly when that is indicator k's domain |
| Scoring.ListedAt | src/utils/calculations.js:58-72 | so in ascending, partitioning lists id k + 1 occurs once under its own domain and never under another |
| Scoring.ListedOnce | src/utils/calculations.js:58-72 | in a consistent calibration every id is counted exactly once over the six domains |
| Scoring.ContributionChangeIs | src/utils/calculations.js:43-49 | a contribution is linear in the z-score: it changes by the z-score's change times the PCA weight Σ loading·variance |
| Scoring.MceiRawChange | src/utils/calculations.js:43-90 | in a consistent calibration, changing one z-score moves the raw MCEI by exactly that change times the indicator's PCA weight |
| Scoring.MceiNormalizedOf | src/utils/calculations.js:104 | a snapshot's MCEI is its raw MCEI normalised on the MCEI benchmark |
| Scoring.ContributionChangePositive | src/utils/calculations.js:43-49 | raising the z-score of an indicator with a positive PCA weight raises its contribution |
| Scoring.MceiRawRisesWithZScore | src/utils/calculations.js:43-90 | in a consistent calibration, raising the z-score of an indicator with a positive PCA weight strictly raises the raw MCEI |
| Scoring.MceiRisesWithZScore | src/utils/calculations.js:43-110 | it strictly raises the normalised MCEI too |
| Costs.Round | src/utils/calculations.js:163-169 | `Math.round` yields the integer n with x − 0.5 < n ≤ x + 0.5 (halves round up) |
| Costs.RoundUnique | src/utils/calculations.js:163-169 | that integer is unique |
| Costs.DriverValueCases | src/utils/calculations.js:116-131 | population, MSW and agricultural firms are read from the municipality, organic is 0.35·MSW, and any other driver gives 0 |
| Costs.InterventionCosts | src/utils/calculations.js:136-171 | an agriFirms driver that resolves to 0 gives seven zero fields; otherwise the figures are the rounded products of the unit coefficients and the driver |
| Costs.ScaledCostsRounded | src/utils/calculations.js:154-169 | each of the seven fields is the rounding of its own unrounded product; the private cost is rounded from the unrounded total − public |
| Costs.CostSplitWithinOne | src/utils/calculations.js:154-165 | because the rounding is independent, public + private differs from the total by at most one unit |
| Costs.CostSplitCanDiffer | src/utils/calculations.js:154-165 | the one-unit discrepancy occurs: a total of 1 shared 50/50 gives total 1, public 1, private 1 |
| Costs.CostsNonNegative | src/utils/calculations.js:154-165 | with a non-negative cost and driver and a share in [0, 100], public and private cost each lie between 0 and the total |
| Costs.BenefitsNonNegative | src/utils/calculations.js:157-169 | non-negative coefficients and driver give non-negative revenue, benefits and NPV |
| Costs.PublicCostPositive | src/utils/calculations.js:155-164 | an unrounded public cost of at least 0.5 rounds to a public cost of at least 1 |
| Simulation.ApplyImpactInPlace | src/utils/calculations.js:196-211 | one impact subtracts from, adds to or multiplies the targeted value in place, or adds to the new-firm count, or does nothing for another type |
| Simulation.ApplyImpactsInPlace | src/utils/calculations.js:195-212 | one intervention's impacts are applied in order |
| Simulation.ApplyCatalogInPlace | src/utils/calculations.js:187-213 | the catalog is walked in order and only active, non-inert interventions apply their impacts |
| Simulation.SumTotals | src/utils/calculations.js:255-276 | the totals are the field-wise sums of the costs of the active interventions only |
| Simulation.RunSimulation | src/utils/calculations.js:176-286 | the result is the simulation specification: impacts in catalog order, then the indicator-1 overwrite, z-scores recomputed only where values changed, scoring and totals |
| Simulation.ApplyCatalogFlat | src/utils/calculations.js:187-213 | the catalog loop equals applying the concatenated impacts of the applying interventions, in catalog order |
| Simulation.ApplyImpactsAppend | src/utils/calculations.js:195-212 | applying a + b is applying a, then b |
| Simulation.ActiveImpactsInRange | src/utils/calculations.js:196 | with a well-formed catalog, every applied write targets an existing indicator |
| Simulation.ApplyImpactsNewFirms | src/utils/calculations.js:208-209 | the new-firm count is the sum of the newFirm values applied |
| Simulation.ApplyImpactsUntargeted | src/utils/calculations.js:196-211 | a value that no applied impact writes keeps its value; newFirm never writes a value |
| Simulation.SimulatedValuesFlat | src/utils/calculations.js:178-220 | the simulated values are the applied impacts on the baseline, with indicator 1 replaced by (agriFirms + n)/(totalFirms + n)·100 exactly when n > 0 |
| Simulation.UntargetedKept | src/utils/calculations.js:225-236 | an indicator that no applied impact writes, and that is not overwritten through the firm count, keeps its baseline value and its stored z-score |
| Simulation.ActiveImpactsNone | src/utils/calculations.js:188 | when no catalog id is active, no impact applies |
| Simulation.TotalsNone | src/utils/calculations.js:265-276 | when no catalog id is active, the totals are zero |
| Simulation.SimulateNoneActive | src/utils/calculations.js:225-236 | with no active id, the simulation keeps every baseline value and stored z-score and equals the current state's snapshot with zero totals |
| Simulation.ApplyCatalogSkipsInert | src/utils/calculations.js:187-213 | the impact loop over a catalog with an inert intervention inserted anywhere equals the loop over the catalog without it |
| Simulation.TotalsSkipInert | src/utils/calculations.js:255-276 | an inert intervention inserted anywhere adds nothing to the totals, active or not |
| Simulation.InertChangesNothing | src/utils/calculations.js:190-193 | an inert agriFirms intervention (municipality without agricultural firms) inserted at any position of the catalog leaves the whole simulation result unchanged, even when selected |
| Simulation.TotalsSplitBounded | src/utils/calculations.js:265-276 | with sound cost inputs, total public and total private cost each lie between 0 and the total cost |
| Simulation.SimulationRaisesMcei | src/utils/calculations.js:176-252 | a simulation whose only z-score change raises one indicator with a positive PCA weight yields a raw and a normalised MCEI strictly above the current state's |
| Optimizer.ZeroMaskEmpty | src/utils/calculations.js:306 | mask 0 has no bit set |
| Optimizer.Pow2At32 | src/utils/calculations.js:293 | 2^32 masks are exactly the span of a 32-bit integer |
| Optimizer.NonZeroMaskHasBit | src/utils/calculations.js:306 | for at most 32 projects, a non-zero mask below 2^n has a set bit below n |
| Optimizer.ShiftWrapsAt32 | src/utils/calculations.js:306 | the 32-bit shift wraps: mask 1 tests true for both project 0 and project 32, and mask 2^32 tests false for every project |
| Optimizer.CostsOf | src/utils/calculations.js:296 | `projectCosts[i]` holds the costs of catalog entry i |
| Optimizer.SumMask | src/utils/calculations.js:331-339 | the inner bit loop yields the ids of the mask's projects in catalog order and its public-cost and benefit sums |
| Optimizer.RunningIdealsAreMaxima | src/utils/calculations.js:299-319 | each ideal starts at 0, bounds its benefit over every affordable mask, and is either 0 or reached by an affordable mask |
| Optimizer.FindIdeals | src/utils/calculations.js:299-319 | phase 1 computes the running maxima over all 2^N masks |
| Optimizer.DeviationNonPositive | src/utils/calculations.js:349-351 | a relative deviation is ≤ 0 when the total does not exceed the ideal, and exactly 0 when the ideal is not positive |
| Optimizer.GoalScoreNonPositive | src/utils/calculations.js:346-353 | with non-negative weights, every affordable mask's best_overall score is ≤ 0 |
| Optimizer.SelectIsWinner | src/utils/calculations.js:341-372 | the selection loop finds a mask exactly when one is affordable; the mask is optimal over all affordable masks, and it is the only such mask that beats every lower affordable one, because ties go to the lowest mask |
| Optimizer.SelectBest | src/utils/calculations.js:321-372 | phase 2 returns the value and the ids of that winning mask, or nothing |
| Optimizer.Filter | src/utils/calculations.js:377 | the selected projects are exactly the catalog entries whose id is in the winning combination |
| Optimizer.FilterInOrder | src/utils/calculations.js:377 | the selected projects sit at strictly increasing positions of the catalog, so they keep catalog order |
| Optimizer.OptimizationOf | src/utils/calculations.js:375-385 | an empty result is always the fixed record: no domains, MCEI 0, six zero totals without privateCost, and no projects; a selected result lists at most the catalog's projects |
| Optimizer.RunOptimization | src/utils/calculations.js:291-388 | the result is the optimization specification: the simulation of the winner and its projects, or the fixed empty record (MCEI 0, no domains) when the winner is empty or nothing is affordable |
| Optimizer.MaskIdsMembership | src/utils/calculations.js:332-333 | with distinct ids, project k's id is among a mask's ids exactly when bit k is set |
| Optimizer.TotalsOfMask | src/utils/calculations.js:265-276 | the simulation's totals for a mask's ids equal the optimizer's own sums for that mask |
| Optimizer.SelectedWithinBudget | src/utils/calculations.js:341-377 | with distinct ids, a selected result's total public cost is within the budget |
| Optimizer.MaskIdsEmpty | src/utils/calculations.js:327-339 | a mask collects no ids exactly when none of the projects' bits is set |
| Optimizer.ZeroMaskNoIds | src/utils/calculations.js:327-339 | the empty mask collects no ids |
| Optimizer.MaskPubAtLeast | src/utils/calculations.js:334 | a mask's public-cost sum is non-negative and at least the cost of each of its projects |
| Optimizer.ZeroBudgetSelectsNothing | src/utils/calculations.js:341-385 | when every project has a public cost of at least 1, a budget of 0 gives the fixed empty record (MCEI 0, no domains) for every objective |
| Optimizer.LinearObjectiveMonotone | src/utils/calculations.js:355-363 | for the three linear objectives, a larger budget never lowers the best value found |
| Optimizer.GoalProgrammingNotMonotone | src/utils/calculations.js:341-372 | best_overall is not monotone in the budget: for two projects with public costs 5 and 10 and (environmental, social, NPV) benefits (10, 10, 10) and (100, 0, 0), and weights (1, 2, 2), the best score is 0 with budget 5 and −0.9 with budget 10 |
| Optimizer.CalculateAllOptimizationScenarios | src/utils/calculations.js:393-403 | the loop returns the four scenarios of the specification |
| Optimizer.ScenariosInOrder | src/utils/calculations.js:394-402 | there are exactly four scenarios: best_overall, max_environmental, max_social and max_npv in that order, each the optimizer's result for its objective |
| Taurasi.ShippedScoringReady | src/data/taurasi.js:46-494 | the loadings have 17 rows of 3, the variance has 3 entries, every domain lists ids in 1..17, and every benchmark has U ≠ L |
| Taurasi.ShippedIdAt | src/data/taurasi.js:79-318 | indicator k has id k + 1 and polarity ±1 |
| Taurasi.ShippedPolarityAt | src/data/taurasi.js:464-482 | `POLARITY[k+1]` is indicator k's own polarity |
| Taurasi.ShippedListedAt | src/data/taurasi.js:487-494 | indicator k is listed under its own domain |
| Taurasi.ShippedIdsAndPolarity | src/data/taurasi.js:79-482 | ids are positions + 1, POLARITY agrees with every indicator and is complete, and every indicator is listed under its domain |
| Taurasi.ShippedExclusiveAt | src/data/taurasi.js:487-494 | every id listed under a domain belongs to an indicator of that domain |
| Taurasi.ShippedDomainsPartition | src/data/taurasi.js:487-494 | DOMAIN_INDICATORS partitions ids 1..17 according to the indicators' domains |
| Taurasi.ShippedBenchmarksCalibrated | src/data/taurasi.js:323-494 | every list is strictly ascending, every benchmark has L = −U with U > 0 and counts its domain's indicators, and the MCEI benchmark counts 17 |
| Taurasi.ShippedWellFormed | src/data/taurasi.js:4-494 | the shipped calibration meets every consistency condition |
| Taurasi.ShippedStdsAboveGuard | src/data/taurasi.js:79-318 | every shipped std is above the 1e-7 guard |
| Taurasi.CatalogWellFormedShipped | src/data/taurasi.js:336-458 | ids are distinct, every impact targets 1..17 with a known type, every driver is known, and every public share is in [0, 100] |
| Taurasi.ShippedCostInputsSound | src/data/taurasi.js:336-458 | every shipped intervention has a non-negative driver value and unit cost and a percentage share |
| Taurasi.BikePathsCosts | src/data/taurasi.js:378-396 | Bike Paths costs 214370 in total, 171496 public and 42874 private, with revenue 56245, benefits 28244 and 25238, and NPV 277576 |
| Taurasi.SustainableWineriesCosts | src/data/taurasi.js:438-457 | with 20 agricultural firms, Sustainable Wineries is not inert and costs 6856980, split 3428490/3428490 |
| Taurasi.ShippedPublicCostsPositive | src/data/taurasi.js:336-458 | every shipped intervention costs the public at least 1 |
| Taurasi.ShippedZeroBudget | src/data/taurasi.js:336-458 | on the shipped data, a budget of 0 gives the fixed empty record for every objective |
| Taurasi.CompostingImpacts | src/data/taurasi.js:336-357 | with only P1 Community Composting active, the single impact that applies is subtracting 0.13 from indicator 7 |
| Taurasi.CompostingApplied | src/data/taurasi.js:354-356 | that impact lowers indicator 7's baseline value by 0.13 and leaves the other 16 values unchanged |
| Taurasi.CompostingValues | src/data/taurasi.js:336-357 | simulating P1 alone counts no new firms and yields the baseline values with indicator 7 at 336.199095 − 0.13 |
| Taurasi.CompostingZScores | src/data/taurasi.js:164-177 | indicator 7 then gets a fresh z-score with polarity −1, mean 330.389081 and std 13.852706; every other indicator keeps its stored z-score |
| Taurasi.CompostedZScoreRises | src/data/taurasi.js:164-177 | indicator 7's z-score rises above its stored −0.419414 (to about −0.41) |
| Taurasi.CompostingWeightPositive | src/data/taurasi.js:48-62 | indicator 7's PCA weight is positive (about 49.7) |
| Taurasi.CommunityCompostingRaisesMcei | src/data/taurasi.js:336-357 | simulating P1 Community Composting alone gives a raw and a normalised MCEI strictly above the current state's |
| SimulatedForm.FormZScore | src/components/SimulatedDataForm.jsx:5-13 | the form's z-score always lies in [−6, 6] |
| SimulatedForm.FormZScoreAgainstEngine | src/components/SimulatedDataForm.jsx:7-13 | it is 0 below the std guard, equals the engine's unclamped z-score when that is within ±6, and is otherwise the cap on the same side; the raw value is not clamped to min/max |
| SimulatedForm.FormZScoreCapBinds | src/components/SimulatedDataForm.jsx:10 | the cap binds: seven standard deviations on the good side score 6 in the form and 7 in the engine |
| SimulatedForm.ComputeFormZScore | src/components/SimulatedDataForm.jsx:7-13 | the reassign-and-cap body computes the form's z-score |
| SimulatedForm.FormNormalize | src/components/SimulatedDataForm.jsx:15-20 | the form's normalised value always lies in [0, 100] |
| SimulatedForm.FormNormalizeAgainstEngine | src/components/SimulatedDataForm.jsx:15-20 | for L < U it equals the engine's normalisation on [L, U], and is 0 below L and 100 above U |
| SimulatedForm.ComputeFormNormalize | src/components/SimulatedDataForm.jsx:15-20 | the reassign-and-clip body computes the form's normalisation |
| SimulatedForm.BaselineMapAt | src/components/SimulatedDataForm.jsx:32-37 | with ids 1..n, the initial map has exactly the keys 1..n and maps each id to its indicator's baseline value |
| SimulatedForm.ResetToBaseline | src/components/SimulatedDataForm.jsx:99-106 | the reduce loop rebuilds the baseline map |
| SimulatedForm.BaselineCovers | src/components/SimulatedDataForm.jsx:32-51 | the baseline map has an entry for every indicator the form reads |
| SimulatedForm.HandleValueChange | src/components/SimulatedDataForm.jsx:92-97 | the entry for the changed id becomes the parsed number, or 0 when the input does not parse; every other key and value is kept |
| SimulatedForm.FormZScores | src/components/SimulatedDataForm.jsx:44-51 | the k-th z-score is the form's z-score of the value entered for indicator k's id, with that indicator's mean and std and its POLARITY entry; each lies in [−6, 6] |
| SimulatedForm.HandleValueChangeLocal | src/components/SimulatedDataForm.jsx:92-97 | after a change every indicator is still covered, and only the z-scores of indicators with that id can change |
| SimulatedForm.ClippedDomainsAt | src/components/SimulatedDataForm.jsx:75-82 | each domain is clip-normalised against its own benchmark |
| SimulatedForm.SimulatedResults | src/components/SimulatedDataForm.jsx:42-90 | the computation returns the form's result: recomputed z-scores, domain sums, MCEI, normalised and clipped |
| SimulatedForm.FormResultIsClippedSnapshot | src/components/SimulatedDataForm.jsx:42-90 | every displayed domain score and the MCEI are the engine's normalised scores of the form's z-scores clipped to [0, 100], so each lies in [0, 100] |

## Left out

- The UI: rendering, charts, the tutorial overlay, the intervention toggle and the form's
  JSX. `parseFloat` is not modelled either: the form takes an already-parsed number, and
  `None` stands for an input that does not parse.
- IEEE-754 arithmetic. All numbers are exact reals. The float `!==` change test of
  `runSimulation` is exact inequality on reals. The stored six-decimal z-scores agree only
  approximately with recomputed ones, so no equality between them is claimed.
- NaN, infinities and division by zero. A missing POLARITY entry, a form value map without
  an indicator's id, or a loadings row or variance list shorter than three entries makes
  JavaScript read `undefined` and compute NaN. A benchmark with U = L divides by zero in
  `normalizeMinMax`: the result is +Infinity for a raw value above L, −Infinity below it,
  and NaN at L (the form then clips ±Infinity to 100 or 0). With a negative
  `totalFirms`, the indicator-1 share `agriFirms / (totalFirms + newFirms)` could divide by
  zero.
  The model rules these out through `PolarityComplete`, `SimulatedForm.Covers`,
  `PcaShaped`, `BenchmarksProper` and the `totalFirms >= 0` clause of `SimulationReady`.
- Thrown errors. An impact whose indicator index is out of range throws a TypeError when
  `runSimulation` updates the missing entry, and a `DOMAIN_INDICATORS` id outside 1..n throws
  when `calculateDomains` reads the loadings of the missing row. With an empty indicator
  list, overwriting indicator 1 when new firms were counted throws as well
  (`src/utils/calculations.js:216-219`); `SimulationReady` requires at least one indicator,
  which also excludes an empty list when no firms are counted. The model rules all of
  these cases out through `ImpactsInRange`, `DomainsIndexed` and the other predicates in
  `calibration.dfy` and through `SimulatedForm.Covers`, and proves that the shipped data
  meets them.
- The PCA eigenvalues, the display-only fields (names, units, descriptions, domain names,
  colours) and the municipality fields the engine does not read.
- JavaScript object-key order. Domains are kept in the fixed order GE, SM, BRS, WM, CW, DECI,
  the order of `DOMAIN_INDICATORS`.
- Optimizer.SelectedWithinBudget: assumes distinct intervention ids. With duplicate ids,
  `runSimulation` would also total an intervention that shares an id with a selected one.
  The shipped catalog's ids are distinct (`Taurasi.CatalogWellFormedShipped`).
- Simulation.RunSimulation: the engine's optional min/max clamp is never passed by
  `runSimulation`, so the simulated z-scores use the unclamped form. The clamped form is
  modelled and proved only on `Scoring.ZScore` itself.
- Baseline immutability: the store is a value, so no operation can change a baseline
  `value` field; there is no aliasing to reason about.
- Optimizer.LinearObjectiveMonotone: the budget monotonicity holds only for the three
  linear objectives. For best_overall the ideals are maxima over the affordable masks, so
  they grow with the budget and every mask's deviations can get worse; a larger budget can
  then lower the best score (`Optimizer.GoalProgrammingNotMonotone`).
- The form's `yearLabel` state and the `currentState` comparison it displays.

Two behaviours of the code are easy to miss:
- The form does not clamp raw values to their historical min/max. It only caps the z-score at ±6.
- The engine's z-score has no ±6 cap, even when it clamps to min/max.
