# MESA valuation engine — a Dafny model

MESA values an early-stage startup in two steps.

1. A yes/no questionnaire of 29 questions in five categories gives a composite score. The categories are financial performance (`perf`), market size (`taille`), traction, team profile (`profil`) and competitive advantage (`avantage`).
   - Each category's raw score is the sum of the points of its "yes" answers, capped at 10.
   - The raw scores are weighted by stage (pre-seed / seed, série A / B, série C and beyond) into the MESA score, out of 10.
   - The risk premium is `1 - score / 10`.
   - The entry form adds the premium to the risk-free rate to get the discount rate.
2. A discounted-cash-flow valuation at that rate:
   - the observed yearly cash flows are projected to seven years with a bracket-dependent growth factor;
   - the net present value (NPV) divides the flow of year t by `(1 + rate)^t`;
   - a Monte Carlo simulation perturbs the rate and the flows and summarises the NPVs (mean, variance, percentiles on a sorted copy, extremes, a 20-bin histogram);
   - a sensitivity sweep recomputes the NPV over a grid of -30% … +30% changes of the rate and of the flows.

Four reference startups come as presets, with their answer sheets, published scores and rates, and cash flows. They are Instagram 2012, Snapchat 2013, a French série A SaaS and TechMed. Applying a preset fills the entry form.

The modules follow the program's structure:

| file | module | models |
|---|---|---|
| `wrappers.dfy` | `Wrappers` | `Option` and `Result` |
| `scoring.dfy` | `Scoring` | question table, raw scores, stage weights, MESA score, risk premium, the form's discount rate |
| `projection.dfy` | `Projection` | cash-flow projection to the horizon |
| `discounting.dfy` | `Discounting` | NPV and its algebra |
| `montecarlo.dfy` | `MonteCarlo` | simulation, sort, statistics, histogram |
| `sensitivity.dfy` | `Sensitivity` | the two sensitivity reports |
| `presets.dfy` | `StartupPresets` | preset table, lookup, application to the form, stage mapping |
| `preset_scores.dfy` | `PresetScores` | the presets run through the scoring engine and the projector |

Code that changes state step by step is modelled with methods, loops and invariants:
- the projection's `while` loop;
- the Monte Carlo trial loop and histogram loop;
- the copying of a preset's answers into the form's map.

The scoring and discounting functions stay pure, as in the source. The sensitivity sweep's two pushes are each a comprehension over the grid, appended to the result list.

Numbers are mathematical reals. Integers are unbounded.

Two behaviours of the code are worth knowing:
- **Sensitivity baseline.** The rate report's 0% entry floors the rate at 1% (`Math.max(0.01, …)`). So it can differ from the base NPV when the base rate is below 1% (`Sensitivity.BaselineClampedBelowFloor`).
- **Stage coefficients.** The weight lookup gives the pre-seed / seed and série A / B labels weights of their own. Every other text falls back to the série C weights, including unknown text. A stage is a label datatype; its `Other` case holds only text that names no known stage (`Scoring.ValidLabel`).

Some definitions are reference definitions or tables that the lemmas reason about, with no row of their own:
- `Discounting.Discounted` is the series of discounted flows;
- `MonteCarlo.Histogram` is the 20 bins of the report, each `BinAt` its own half-open range;
- `Discounting.Npv` is the NPV fold itself (lib/mesa.ts:188-193), the subject of every `Discounting.Npv…` lemma;
- `Sensitivity.RateVariation` is one entry of the rate report (lib/mesa.ts:336-344), described by `Sensitivity.RunSensitivityAnalysis`, `BaselineEntries` and `RateReportOrdered`;
- `StartupPresets.BooleanAnswers` and `StartupPresets.CashflowSlots` are the two conversions in `applyMesaPreset` (lib/startup-presets.ts:496-505), described by `BooleanAnswersUnique` and `SlotsRoundTrip`;
- `StartupPresets.FilledFlows` is the page's read-back of the cash-flow fields (app/page.tsx:150-157), which keeps the filled fields in order and drops the empty ones, described by `SlotsRoundTrip`;
- `Scoring.Questions` is the question table `MESA_QUESTIONS` (lib/mesa.ts:30-70), described by `TablePointsPositive` and `TableTotals`;
- `StartupPresets.MesaPresets` is the preset table `MESA_PRESETS` (lib/startup-presets.ts:104-397), described by `PresetsWellFormed` and `GetStartupById`;
- `Scoring.Cap` is the cap `Math.min(10, …)` of a category's points (lib/mesa.ts:80), used by `CategoryRawScore` and the preset-sheet lemmas;
- `Scoring.StageCoefficientsOfText` is the chain of string comparisons of the weight lookup (lib/mesa.ts:84-114), which `StageCoefficientsAgree` ties to the label lookup.

The preset data holds three deviations, stated as lemmas rather than assumed away:
- **TechMed score.** Its answers score **6.65** under the série A / B weights, where 6.5 is recorded (`PresetScores.PublishedScores`).
- **TechMed rate.** Following from that score, the premium is 0.335 and the form composes a discount rate of 0.355. The preset records 0.35 and 0.37 (`PresetScores.PublishedRates`).
- **Instagram.** Score 7.5 gives a premium of exactly 0.25, so the form composes a discount rate of 0.28. The preset records 0.2499 and 0.2799 (`PresetScores.PublishedRates`).

## Model

| member | source | states |
|---|---|---|
| Scoring.TablePointsPositive | lib/mesa.ts:30-70 | every question of the shipped table is worth one or two points |
| Scoring.TableTotals | lib/mesa.ts:30-70 | each of the five categories carries exactly 10 points in total, all positive |
| Scoring.SatisfiedPoints | lib/mesa.ts:77-79 | the uncapped sum of the points of the "yes" answers lies between 0 and the category's total points |
| Scoring.CategoryRawScore | lib/mesa.ts:73-81 | the category score is at most 10, at most the satisfied points, and non-negative for non-negative points |
| Scoring.SatisfiedPointsMonotone | lib/mesa.ts:73-81 | answering more questions "yes" never lowers the points or the capped score |
| Scoring.AllSatisfiedCollectsTotal | lib/mesa.ts:77-79 | when every question is answered "yes", the sum is the list's total points |
| Scoring.FullCategoryScoresTen | lib/mesa.ts:73-81 | with the shipped table the cap never cuts, and an all-"yes" category scores exactly 10 |
| Scoring.RawScoresOf | app/page.tsx:104-121 | the form's five raw scores all lie in [0, 10] |
| Scoring.ParseStage | lib/mesa.ts:85-87 | reading a lower-cased stage label loses nothing: the label's text is the text read |
| Scoring.ParseKnownLabel | lib/mesa.ts:84-114 | rereading the text of any of the eight known labels gives the label back |
| Scoring.ParsedLabelValid | lib/mesa.ts:84-114 | reading any text gives a valid label, and `Other` exactly when the text is none of the eight known stage texts |
| Scoring.ValidLabelIsParsed | lib/mesa.ts:84-114 | every valid label is the reading of its own text, so two valid labels with the same text are the same label |
| Scoring.KnownTextIsNotOther | lib/mesa.ts:84-114 | a known stage text wrapped as `Other` is not a valid label, so `Other` never stands for a known stage |
| Scoring.StageCoefficients | lib/mesa.ts:84-114 | every stage's five weights lie in [0, 1] and sum to 1 |
| Scoring.StageCoefficientsAgree | lib/mesa.ts:84-114 | for every text, its reading is a valid label whose weights are the ones the chain of string comparisons picks |
| Scoring.UnknownStageFallsBack | lib/mesa.ts:104-113 | any valid label outside the pre-seed / seed and série A / B buckets (série C ou plus, serie_c_plus, or unrecognised text) gets the série C weights |
| Scoring.WeightedSumBounds | lib/mesa.ts:117-140 | raw scores in [0, 10] with weights in [0, 1] summing to 1 give a weighted sum in [0, 10] |
| Scoring.ComputeMesaScore | lib/mesa.ts:117-140 | the weighted scores are the products of raw score and stage weight; the MESA score is their sum and lies in [0, 10] for raw scores in range |
| Scoring.RiskPremium | lib/mesa.ts:142-144 | the premium is 1 at score 0 and 0 at score 10, and lies in [0, 1] for scores in [0, 10] |
| Scoring.RiskPremiumStrictlyDecreasing | lib/mesa.ts:142-144 | a higher score always gives a strictly lower premium |
| Scoring.ComputeMesaResult | app/page.tsx:124-146 | no result exactly when no stage is chosen; otherwise the raw scores of the answers, the score of that stage in [0, 10], premium in [0, 1], risk-free percent taken as 0 when the field is not a number, discount rate = risk-free percent / 100 + premium, non-negative for a non-negative risk-free rate |
| Projection.Multiplier | lib/mesa.ts:161-177 | the growth factor is always one of 1.44, 0.93, 0.80, 0.59, 0.43, 0.45, hence positive |
| Projection.ProjectCashflows | lib/mesa.ts:148-186 | it rejects exactly the empty input; otherwise the result is a projection: cut to the horizon if long enough, else the input followed by entries each equal to the previous one times its factor, up to the horizon |
| Projection.GrownAppend | lib/mesa.ts:178-181 | one loop step (the last value times its factor, pushed) keeps the growth property |
| Projection.ProjectionUnique | lib/mesa.ts:148-186 | the projection of a non-empty input to a horizon is unique |
| Projection.GrownKeepsSign | lib/mesa.ts:163-181 | projected entries keep the sign of the last observed flow: a loss deepens by 1.44 every year and zero stays zero |
| Projection.OneStep | lib/mesa.ts:159-181 | projecting one value to two years appends that value times its factor |
| Projection.OneStepAtBracketEdges | lib/mesa.ts:163-176 | the bracket edges: 999,999 grows by 1.44, 1,000,000 by 0.93, 20,000,000 by 0.45 |
| Discounting.Pow | lib/mesa.ts:191 | a positive base has a positive power, so no discount factor is zero |
| Discounting.NpvNonNegative | lib/mesa.ts:188-193 | non-negative flows have a non-negative NPV |
| Discounting.NpvAntitone | lib/mesa.ts:188-193 | for non-negative flows a higher rate never gives a higher NPV |
| Discounting.NpvAppend | lib/mesa.ts:188-193 | appending a flow to n flows adds it discounted over n + 1 years |
| Discounting.NpvShortSeries | lib/mesa.ts:188-193 | no flows are worth 0, and one flow is discounted once |
| Discounting.NpvAtZeroRate | lib/mesa.ts:188-193 | at rate 0 the NPV is the plain sum of the flows |
| Discounting.NpvIsSum | lib/mesa.ts:188-193 | the fold equals the sum of the discounted series |
| Discounting.Scale | lib/mesa.ts:352 | every flow multiplied by the factor, and the total of the flows multiplied by it too |
| Discounting.SumScale | lib/mesa.ts:188-193 | scaling every entry by k scales the sum by k |
| Discounting.NpvScale | lib/mesa.ts:188-193 | scaling every flow by k scales the NPV by k |
| MonteCarlo.SimulatedRate | lib/mesa.ts:253-263 | the simulated rate is never below 1% |
| MonteCarlo.PerturbedFlow | lib/mesa.ts:257-260 | a perturbed flow is non-negative and at least the unfloored product |
| MonteCarlo.PerturbedCashflows | lib/mesa.ts:257-261 | one perturbed flow per flow, all non-negative |
| MonteCarlo.SimulatedNpv | lib/mesa.ts:263 | every trial's NPV is non-negative, whatever the noise and the original flows' signs |
| MonteCarlo.Simulate | lib/mesa.ts:249-265 | one NPV per trial, in trial order, each the NPV of the perturbed flows at the floored perturbed rate |
| MonteCarlo.SortAsc | lib/mesa.ts:268 | the sorted copy is ascending and a permutation of the samples |
| MonteCarlo.Insert | lib/mesa.ts:268 | insertion keeps a sequence ascending and adds exactly the one entry |
| MonteCarlo.SortedPermutationUnique | lib/mesa.ts:268 | two ascending permutations of the same samples are equal, so the sorted copy is determined |
| MonteCarlo.SortedExtremes | lib/mesa.ts:280-281 | the first and last entries of the sorted copy are samples and bound every sample |
| MonteCarlo.PercentileIndex | lib/mesa.ts:272-275 | floor(n * k) for k in [0, 1) is a valid index |
| MonteCarlo.PercentileIndicesOrdered | lib/mesa.ts:271-275 | the 5th, 25th, median, 75th and 95th indices are in order |
| MonteCarlo.PercentilesOrdered | lib/mesa.ts:271-275 | on an ascending sequence the percentiles run from the first entry to the last in order |
| MonteCarlo.OrderStatistics | lib/mesa.ts:268-281 | min and max of the sorted copy bound all samples, are samples, and enclose the ordered percentiles |
| MonteCarlo.SquaredDeviations | lib/mesa.ts:277 | the sum of squared deviations is non-negative |
| MonteCarlo.SumBounds | lib/mesa.ts:270 | n entries in [lo, hi] sum to between n * lo and n * hi |
| MonteCarlo.MeanBounds | lib/mesa.ts:270 | the mean lies between the smallest and the largest sample |
| MonteCarlo.Moments | lib/mesa.ts:270-277 | the mean lies in [min, max] and the variance is non-negative |
| MonteCarlo.Statistics | lib/mesa.ts:268-281 | min, max, median and percentiles are the sorted copy's entries at the source's indices, in order; mean and variance are the population moments |
| MonteCarlo.CountInRange | lib/mesa.ts:291 | a bin's count is at most the number of samples |
| MonteCarlo.CountSplit | lib/mesa.ts:288-291 | adjacent half-open ranges count exactly what their union counts |
| MonteCarlo.CountEmptyRange | lib/mesa.ts:291 | an empty range counts nothing |
| MonteCarlo.CountClosedRange | lib/mesa.ts:288-291 | when all samples lie in [lo, hi], the half-open [lo, hi) misses exactly the samples equal to hi |
| MonteCarlo.BinsTile | lib/mesa.ts:288-291 | the first k bins together count the range from min to the start of bin k |
| MonteCarlo.LastBinEnd | lib/mesa.ts:285-290 | the twentieth bin ends exactly at max |
| MonteCarlo.HistogramCovers | lib/mesa.ts:284-298 | over a non-empty range the bins count every sample except those equal to the maximum |
| MonteCarlo.HistogramEmpty | lib/mesa.ts:284-298 | when all samples are equal every bin is empty |
| MonteCarlo.HistogramTotals | lib/mesa.ts:284-298 | the bins' total is n minus the samples equal to max when min < max, and every bin is empty when min = max |
| MonteCarlo.BuildDistribution | lib/mesa.ts:284-298 | the loop builds exactly the 20-bin histogram, percentages = count / n * 100 |
| MonteCarlo.Summarise | lib/mesa.ts:268-311 | the summary keeps the samples and satisfies every statistic and histogram property above |
| MonteCarlo.RunMonteCarloSimulation | lib/mesa.ts:243-312 | one sample per trial, each the trial's simulated NPV; the minimum is non-negative; the summary describes the samples |
| Sensitivity.GridSteps | lib/mesa.ts:333 | the grid has seven points, (i - 3) / 10 for i = 0 … 6 |
| Sensitivity.GridAscending | lib/mesa.ts:333 | the grid is strictly ascending, every change is above -100%, and the middle one is 0 |
| Sensitivity.CashflowVariation | lib/mesa.ts:350-360 | a cash-flow entry records its change, and its NPV is (1 + change) times the base NPV |
| Sensitivity.RunSensitivityAnalysis | lib/mesa.ts:325-363 | two reports, rate then cash flows, seven entries each in grid order; the rate entry records base * (1 + change) and the NPV at that rate floored at 1%; the cash-flow entry records the change and (1 + change) * base NPV |
| Sensitivity.BaselineEntries | lib/mesa.ts:335-360 | the 0% entries give back the base rate and the base NPV (the rate report only for a base rate of at least 1%) |
| Sensitivity.BaselineClampedBelowFloor | lib/mesa.ts:337-338 | below 1% the rate report's 0% entry is not the base NPV: one flow of 1 at rate 0 gives 1/1.01, not 1 |
| Sensitivity.RateReportOrdered | lib/mesa.ts:335-345 | for a non-negative base rate the recorded rates rise along the grid, and for non-negative flows the NPVs fall |
| Sensitivity.CashflowReportOrdered | lib/mesa.ts:350-360 | the cash-flow NPVs rise along the grid for a non-negative base NPV and fall for a non-positive one |
| StartupPresets.PresetsWellFormed | lib/startup-presets.ts:104-397 | every preset is filed under its own id, its discount rate is risk-free rate plus premium, and its filled years are its number of flows |
| StartupPresets.GetStartupById | lib/startup-presets.ts:470-472 | a preset is found exactly when the id is in the table, and it is that entry, carrying that id |
| StartupPresets.MapMesaStageToUIStage | lib/startup-presets.ts:525-538 | the form label chosen for an internal stage selects the same weights as the internal stage |
| StartupPresets.MapMesaStageInjective | lib/startup-presets.ts:525-538 | distinct internal stages map to distinct form labels |
| StartupPresets.BooleanAnswersUnique | lib/startup-presets.ts:496-499 | the form's answer map is the only map over all 29 keys that says yes exactly where the sheet says 1 |
| StartupPresets.SlotsRoundTrip | lib/startup-presets.ts:502-505 | the form gets seven cash-flow fields, and the page's read-back of the filled ones (app/page.tsx:150-157) gives the preset's flows, cut after the seventh |
| StartupPresets.ApplyMesaPreset | lib/startup-presets.ts:479-520 | no values for an unknown id; otherwise the form gets the mapped stage, the risk-free rate in percent, the boolean answers over all keys, the seven cash-flow fields and the currency |
| PresetScores.FormScoreIsPresetScore | app/page.tsx:124-131 | scoring the form's answers under the mapped stage gives the preset's own score, and the form's rate is risk-free rate plus that score's premium |
| PresetScores.SheetPoints | lib/mesa.ts:77-79 | through the form's boolean map, the satisfied points are the points of the sheet's 1-answers |
| PresetScores.SheetCategory | lib/mesa.ts:73-81 | a category's raw score for a sheet is its points from the 1-answers, capped at 10 |
| PresetScores.PerfPoints | lib/mesa.ts:31-37 | the perf points are 2 per 1-answer |
| PresetScores.TaillePoints | lib/mesa.ts:38-46 | the taille points: 2 for a, b and i, 1 for d, e, g and h |
| PresetScores.TractionPoints | lib/mesa.ts:47-53 | the traction points are 2 per 1-answer |
| PresetScores.ProfilPoints | lib/mesa.ts:54-61 | the profil points: 2 for a, b, c and g, 1 for e and f |
| PresetScores.AvantagePoints | lib/mesa.ts:62-69 | the avantage points: 2 for a, b, c and g, 1 for e and f |
| PresetScores.SheetRawScores | lib/mesa.ts:30-81 | a sheet's five raw scores are the capped weighted sums of its answers |
| PresetScores.InstagramSheet | lib/startup-presets.ts:117-156 | the Instagram sheet scores 4, 10, 6, 10, 6 |
| PresetScores.SnapchatSheet | lib/startup-presets.ts:193-232 | the Snapchat sheet scores 4, 10, 6, 6, 6 |
| PresetScores.SaasSheet | lib/startup-presets.ts:271-310 | the SaaS sheet scores 8, 6, 6, 4, 6 |
| PresetScores.TechMedSheet | lib/startup-presets.ts:342-381 | the TechMed sheet scores 6, 9, 4, 8, 6 |
| PresetScores.PresetRawScores | lib/startup-presets.ts:104-397 | the raw scores of each preset in the table |
| PresetScores.SerieABScore | lib/mesa.ts:96-103 | under the série A / B weights the score is 0.15, 0.15, 0.20, 0.30, 0.20 of the raw scores |
| PresetScores.PublishedScores | lib/startup-presets.ts:104-397 | Instagram, Snapchat and SaaS reproduce their recorded score; TechMed gives 6.65, not the recorded 6.5 |
| PresetScores.PublishedRates | lib/startup-presets.ts:104-397 | SaaS and Snapchat give back their recorded discount rate; Instagram's premium is 0.25 and its rate 0.28, not the recorded 0.2499 and 0.2799; TechMed's premium is 0.335 and its rate 0.355, not the recorded 0.35 and 0.37 |
| PresetScores.SaasProjection | lib/startup-presets.ts:319 | the SaaS preset's four flows project to 1,000,680, 930,632.4 and 1,340,110.656 for years 5-7 |

## Left out

- Floating point: every quantity is a mathematical real. Rounding, NaN and infinities are not modelled. The NPV requires `1 + rate > 0`, where the source would divide by zero or by powers of a negative number.
- Randomness: the Box–Muller normal deviates (`generateNormalRandom`, lib/mesa.ts:235-240) are not modelled. Each trial's rate noise and per-flow noise are inputs (`MonteCarlo.Draw`), supplied in the order the source draws them. The supplied noise is already scaled as in the source: 0.1 × the deviate for the rate, 0.15 × the deviate for each flow (lib/mesa.ts:252, 257).
- MonteCarlo.RunMonteCarloSimulation: requires at least one trial. With zero trials the source divides by zero and reads past the end of an empty array, and its result is not a number.
- MonteCarlo.Statistics: the source's standard deviation is reported as the variance. Square roots of reals are not modelled.
- The JavaScript array sort is modelled by an insertion-sort function. `SortedPermutationUnique` shows that any ascending permutation equals it, so the choice of algorithm does not matter.
- Every function that formats text for display is not modelled: the currency, number and percent formatters (lib/mesa.ts:196-214), the histogram's `range` labels and the sensitivity entries' `change` labels.
- The baseNPV argument of runMonteCarloSimulation and runSensitivityAnalysis is accepted and ignored, as in the source.
- `toLowerCase` is not modelled. The stage lookup works on a label datatype (`Scoring.StageLabel`) or on already lower-cased text, and `StageCoefficientsAgree` links the two readings.
- Question labels (display text) are left out. A question is its key and its points. Keys are an enum of the 29 known keys. The source ignores any other key in the answer map.
- Preset display metadata (names, descriptions, logos, colours, tags, notes, `npvUnit`) is left out. So are the carousel list `STARTUP_PRESETS`, the display maps `STAGE_LABELS`, `STAGE_DISPLAY_MAP` and `CURRENCY_LABELS*` (lib/startup-presets.ts:402-466), and `publishedNpv` beyond being carried as data.
- StartupPresets.ApplyMesaPreset: the form callback becomes the method's result. The `console.warn` for an unknown id is not modelled. The `String(...)` conversions of the flows and the rate are left out: the fields hold the numbers. An empty field is `None`.
- StartupPresets.MapMesaStageToUIStage: the `default` branch of the source's switch cannot be reached on the closed stage type, so it is not modelled.
- The report pages and UI components (app/page.tsx beyond the lines cited, app/details/page.tsx, components/) are not part of this model: React state, memoisation, local storage, error boundaries, tutorial and charts.
- Scoring.ComputeMesaResult: the risk-free field arrives as a number or as `None` for text that `parseFloat` cannot read, which the page's `|| 0` turns into 0. The parsing of the text itself is not modelled. The page's `try`/`catch` around the computation has no counterpart, since nothing in the model can throw.
- StartupPresets.GetStartupById / StartupPresets.ApplyMesaPreset: the preset table is a map over its four ids. In the source it is a plain object, so an inherited property name such as `toString` or `constructor` also finds a value: `getStartupById` returns that function instead of `undefined`, and `applyMesaPreset` gets past its `!preset` test and then throws when it reads `preset.answers`. The model answers `None` for every id outside the four, and no caller passes such an id.
- Projection.ProjectCashflows: the horizon is a natural number passed explicitly. The source's default of 7 is left out; the only caller (app/page.tsx:161) passes 7. Negative and fractional `number` horizons are not modelled.
- Scoring.RawScoresOf: the page's fallback to zero scores when the question table is not loaded is not modelled; the table is a constant here.
