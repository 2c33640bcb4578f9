# Layered-tissue light transport: layer stacks, output reductions and goodness of fit

This project is a Dafny model of the arithmetic core of a Monte Carlo study of infrared light scattering in layered brain tissue. It covers three parts of that core:

- **Layer aggregation** (`LayersManager`, layers_manager.py). The default stack has four tissue layers between two ambient media. It is collapsed into one, two or three effective layers. Each effective layer averages the refractive index, the absorption and scattering coefficients and the anisotropy of a consecutive group of tissue layers, and it is as thick as the group. An unknown scheme code is an error.
- **Layer stack and output reductions** (`Simulation`, monte_carlo_simulation.py). `initialize_input` turns the parameter dictionary into layer records that carry depth bounds and the critical cosine at the upper interface. `process_output` then:
  - divides the raw per-bin photon weights by the photon count;
  - reduces the resulting 2-D fields to radial, angular and depth profiles and to totals.

  The radial bin centres are used before interpolation.
- **Histogram statistics and Pearson tests** (`Statistic`, `BinMerging`, statistic.py). These cover:
  - Sturges' bin width;
  - the histogram-weighted mean and the sample variance of the bin midpoints;
  - the confidence intervals;
  - the chi-square goodness-of-fit bookkeeping: merging low-count bins, degrees of freedom, the statistic (NaN when too few merged bins remain) and the Accepted/Rejected decision.

All arithmetic is over `real`. The transcendental and library parts are parameters supplied by the caller:

- natural log and square root;
- pi;
- the scipy CDFs and quantiles, and `1 - chi2.cdf`;
- the histogram edges and counts.

Python exceptions become `Outcomes.Result` failures.

Modules, one per file:

| file | module | contents |
|---|---|---|
| outcomes.dfy | `Outcomes` | `Option`, `Result`, and the exceptions raised (`IndexError`, `ZeroDivision`, `InvalidScheme`, `EmptySample`) |
| sums.dfy | `RealSums` | left-to-right `Sum`, `RunSum`, `Mean`, and the lemmas about them |
| grids.dfy | `Grids` | 2-D fields, axis sums and totals |
| params.dfy | `Params` | the parameter dictionary and the default stack of config.py |
| merging.dfy | `BinMerging` | `_merge_intervals` in three forms: the accumulator fold, a group-wise reference, and a declarative characterisation, proved to agree |
| statistic.dfy | `Statistic` | `StatisticalAnalyzer` apart from display |
| simulation.dfy | `Simulation` | `initialize_input`, lines 74-88 of `process_output`, and the radial bin centres |
| layers.dfy | `LayersManager` | the schemes, and a generic aggregation by grouping that they are all proved to be |

## Model

| member | source | states |
|---|---|---|
| BinMerging.Paired | statistic.py:56 | `zip` stops at the shorter of the observed and expected arrays |
| BinMerging.Boundaries | statistic.py:56-61 | group boundaries satisfy the closing rule: a group closes at the first bin where its running expected sum reaches 5 and no later bin, and the trailing run never reaches 5 |
| BinMerging.Step | statistic.py:57-61 | one iteration emits a new merged bin exactly when the running expected sum reaches 5, and emits the same number of observed and expected bins, at most one |
| BinMerging.StepConserves | statistic.py:56-61 | an iteration keeps the bins emitted so far as a prefix, and the emitted bins plus the running sums grow by exactly the new observed and expected counts |
| BinMerging.Finish | statistic.py:62-63 | the trailing fold keeps the number of merged bins |
| BinMerging.FinishConserves | statistic.py:62-63 | the fold never lowers a merged bin; with a positive leftover and at least one bin both totals absorb the running sums; otherwise the bins are returned unchanged |
| BinMerging.ScanPrefix | statistic.py:55-61 | after every prefix, the accumulator has emitted exactly the closed groups' run sums and holds the open run's sums |
| BinMerging.MergeIntervals | statistic.py:53-64 | observed and expected outputs have equal length, no longer than the paired input; every merged expected count is at least 5; merged bin j is the sum of a contiguous run of input bins in input order, and the last run absorbs the trailing run exactly when that run's expected sum is positive |
| BinMerging.FinishMatches | statistic.py:62-64 | the trailing fold keeps every bin at or above 5 and yields the declarative result |
| BinMerging.MergeIntervalsTotals | statistic.py:56-63 | with a positive leftover and at least one closed group, both totals are preserved; otherwise the result misses exactly the leftover observed and expected counts |
| BinMerging.MergeIntervalsEmpty | statistic.py:59-64 | the output is empty iff the running expected sum from the first bin never reaches 5 |
| BinMerging.ClosedGroupsUnique | statistic.py:59-61 | the closing rule admits only one boundary sequence |
| BinMerging.MergeIntervalsCharacterized | statistic.py:53-64 | any result that satisfies the declarative description equals `_merge_intervals`' result |
| Statistic.Min | statistic.py:20 | the minimum is an element and bounds every element from below |
| Statistic.Max | statistic.py:21 | the maximum is an element and bounds every element from above |
| Statistic.NewAnalyzer | statistic.py:16-24 | fails iff the sample is empty; otherwise keeps the sample with N equal to its length |
| Statistic.Analyzer.H | statistic.py:24 | Sturges' width is non-negative, and positive iff the sample is not constant, which needs at least two observations |
| Statistic.Calculate | statistic.py:26-37 | nothing is computed iff h <= 0; otherwise the midpoints of the given edges, mean times N equals the count-weighted midpoint sum, variance times (N - 1) equals the count-weighted squared deviations from that mean, and the variance is non-negative for non-negative counts |
| Statistic.Midpoints | statistic.py:33 | one midpoint fewer than there are edges |
| Statistic.MidpointsEquidistant | statistic.py:33 | each midpoint is as far from its left edge as from its right edge |
| Statistic.SampleMean | statistic.py:36 | the mean times N gives back the weighted total |
| Statistic.SampleVariance | statistic.py:37 | the variance times (N - 1) gives back the squared deviations, and is non-negative when they are |
| Statistic.WeightedSumAtLeast | statistic.py:36 | with non-negative weights and every value at least lo, `sum(x * w)` is at least lo times the total weight |
| Statistic.WeightedSumAtMost | statistic.py:36 | with non-negative weights and every value at most hi, `sum(x * w)` is at most hi times the total weight |
| Statistic.SquaredDeviations | statistic.py:37 | the weighted squared deviations are non-negative for non-negative weights |
| Statistic.MidpointsBetweenEdges | statistic.py:33 | for strictly increasing edges, each midpoint lies strictly between its two edges and the midpoints strictly increase |
| Statistic.MidpointsOfEvenEdges | statistic.py:30-33 | on evenly spaced edges, midpoint i is `start + (i + 1/2) h` |
| Statistic.WeightedMeanBounds | statistic.py:36 | a weighted mean with non-negative weights summing to N lies between the smallest and the largest value |
| Statistic.MeanWithinMidpoints | statistic.py:33-36 | when the non-negative counts add up to N, the mean lies between the smallest and the largest midpoint |
| Statistic.ConfidenceIntervals | statistic.py:40-48 | the mean interval is centred on the mean and contains it for non-negative t and deviation; the variance interval's bounds are ordered when the chi-square quantiles are |
| Statistic.MeanIntervalWidens | statistic.py:42-44 | a larger t quantile gives a mean interval at least as wide |
| Statistic.MeanIntervalWidensStrictly | statistic.py:42-44 | with a positive deviation, a strictly larger t quantile gives a strictly wider mean interval, so the half-width grows with t |
| Statistic.VarianceIntervalContains | statistic.py:46-48 | for N >= 2 and a positive variance d, the lower bound `(N-1) d / chi2_high` is at most d iff `N - 1 <= chi2_high`, and the upper bound `(N-1) d / chi2_low` is at least d iff `chi2_low <= N - 1` |
| Statistic.DegreesOfFreedom | statistic.py:70-79 | `max(1, k - 3)` for the normal test and `max(1, k - 2)` for the exponential one: always at least 1, exactly 1 below the floor, and otherwise k minus one minus the number of fitted parameters |
| Statistic.Contribution | statistic.py:71 | a bin's `(o - e)^2 / e` is non-negative, and zero iff o equals e |
| Statistic.ChiSquare | statistic.py:71 | the statistic over bins with positive expected counts is non-negative |
| Statistic.ChiSquareZeroIff | statistic.py:71 | the statistic is zero iff observed equals expected |
| Statistic.Decide | statistic.py:73-82 | Accepted iff the p-value is a number and at least alpha; a NaN p-value is Rejected |
| Statistic.TestMerged | statistic.py:70-73 | df is the family's `max(1, k - 1 - fitted)`, so at least 1; the statistic is NaN iff fewer merged bins than the family's minimum, and otherwise equals the chi-square sum over the merged bins, which is >= 0 and zero iff a perfect fit; a finite statistic's p-value is `upperTail(chi2, df)`; Accepted iff finite with upper tail >= alpha; NaN gives a NaN p-value and Rejected |
| Statistic.ExpectedCounts | statistic.py:69-78 | one expected count `N * p_i` per bin, adding up to N times the total probability |
| Statistic.PearsonTest | statistic.py:69-73 | the merged bins have equal lengths and expected counts >= 5; df is determined by the number of merged bins and is >= 1; the statistic is NaN iff too few merged bins remain, and otherwise is the chi-square sum over them, non-negative, with p-value `upperTail(chi2, df)`; Accepted iff that upper tail is >= alpha |
| Statistic.RunPearsonTests | statistic.py:66-82 | both tests run on the same histogram counts; both dfs are >= 1; an Accepted test has a finite, non-negative statistic whose upper tail is >= alpha |
| Statistic.NormalNeedsMoreBins | statistic.py:70-80 | on the same merged bins, a defined normal statistic implies an equal, defined exponential one; from 4 merged bins on, the exponential test has one more degree of freedom |
| Simulation.CriticalCosine | monte_carlo_simulation.py:46 | the cosine is 0 when the layer is not denser than the medium above; with Python-float indices it divides by zero iff a zero index lies below a negative one |
| Simulation.CriticalCosineRange | monte_carlo_simulation.py:44-46 | below a strictly denser layer with a positive index above, and for a non-negative square root, the cosine is defined, strictly between 0 and 1, and `cos^2 + (n0/n1)^2 = 1` |
| Simulation.LayerAt | monte_carlo_simulation.py:40-57 | record i exists iff its array entries exist and the cosine is defined; it takes `n[i+1]`, `mua[i]`, `mus[i]`, `g[i]`, with `z1 = d[0] + ... + d[i]`, `z0 = d[0] + ... + d[i-1]` and `z1 - z0 = d[i]`; its `cos_crit0` is the critical cosine of `n[i]` over `n[i+1]` |
| Simulation.BuildLayers | monte_carlo_simulation.py:38-57 | the loop yields one record per layer in order, or the error of the first record that fails |
| Simulation.InitializeInput | monte_carlo_simulation.py:28-64 | succeeds iff every record is defined, `na > 0` and `n` is non-empty; makes exactly `nl` records; copies the grid; `n_above = n[0]` and `n_below` is the last index |
| Simulation.InitializeInputStack | monte_carlo_simulation.py:41-42 | the first layer starts at 0; consecutive layers touch; each is `d[i]` thick; the last ends at the summed thickness; positive thicknesses give `z0 < z1` |
| Grids.RowSumsTotal | monte_carlo_simulation.py:79-86 | the row sums add up to the total |
| Grids.ColSumsTotal | monte_carlo_simulation.py:80-86 | the column sums add up to the total |
| Grids.DivideTotal | monte_carlo_simulation.py:74-86 | dividing every element by c divides the total by c |
| Simulation.NormalizeAndReduce | monte_carlo_simulation.py:74-88 | every element is the raw value over the photon count; profile entry i of `rd_r`, `ab_r`, `tt_r` is raw row i's sum over the photon count, and entry j of `rd_a`, `ab_z`, `tt_a` is raw column j's sum over it, so normalising and reducing commute; both profiles of a field add up to its total, the raw total over the photon count |
| Simulation.NormalizeField | monte_carlo_simulation.py:74-86 | for one field: the same elementwise quotient, per-entry profiles and totals |
| Grids.ReduceDivide | monte_carlo_simulation.py:79-84 | each row or column sum of the divided field is that sum of the original field divided by c |
| Simulation.ZeroCountsZeroTotals | monte_carlo_simulation.py:74-88 | all-zero raw fields give `rd = ab = tt = 0` |
| Simulation.UnitReflectance | monte_carlo_simulation.py:74-86 | reflectance weights adding up to the photon count give total reflectance 1 |
| Simulation.RIndex | monte_carlo_simulation.py:133 | `nr` radii, radius i halfway between `i dr` and `(i + 1) dr` |
| Simulation.RIndexAreBinCentres | monte_carlo_simulation.py:133 | the radii are the midpoints of the bins `[k dr, (k + 1) dr]` |
| Simulation.RIndexSpacing | monte_carlo_simulation.py:133 | the first radius is `dr/2`; consecutive radii are `dr` apart; they strictly increase for `dr > 0` |
| LayersManager.Aggregate | layers_manager.py:73-77 | the aggregated dictionary copies the grid, has `nl` groups, an `n` of length `nl + 2` framed by the original ambient indices, and one value per group in every other array |
| LayersManager.AggregateGroups | layers_manager.py:47-53 | effective layer j averages its group's index, absorption, scattering and anisotropy, and sums its thicknesses |
| LayersManager.AggregateThickness | layers_manager.py:53 | the effective thicknesses add up to the total tissue thickness |
| LayersManager.AggregateCharacterized | layers_manager.py:43-77 | the shape, grid, ambient indices and group facts determine the aggregated dictionary |
| LayersManager.AggregateIdentity | layers_manager.py:83-105 | grouping each tissue layer on its own gives back the four-layer dictionary |
| LayersManager.MakeOneLayer | layers_manager.py:26-41 | as written, the index averages only `n[1:4]`; the coefficients and thickness agree with the all-four-layer group; total thickness is kept; ambients and grid are copied |
| LayersManager.MakeOneLayerCorrected | layers_manager.py:26-41 | one effective layer averaging all four tissue layers, index included, as thick as the stack |
| LayersManager.OneLayerDiscrepancy | layers_manager.py:31 | the as-written and the corrected one-layer records agree iff the fourth tissue's index equals the mean of the other three |
| LayersManager.OneLayerDefaultIndex | layers_manager.py:31 | on the default stack, the as-written index is 4.13/3, not 1.375 |
| LayersManager.MakeTwoLayers | layers_manager.py:43-77 | fails iff the code is not '2-2', '1-3' or '3-1'; otherwise two layers with the grid and ambient indices copied |
| LayersManager.SchemeTwoTwo | layers_manager.py:47-53 | '2-2' is the aggregation by {0,1}{2,3} and keeps the total thickness |
| LayersManager.SchemeOneThree | layers_manager.py:55-61 | '1-3' is the aggregation by {0}{1,2,3} and keeps the total thickness |
| LayersManager.SchemeThreeOne | layers_manager.py:63-69 | '3-1' is the aggregation by {0,1,2}{3} and keeps the total thickness |
| LayersManager.MakeTwoLayersAggregates | layers_manager.py:47-69 | each two-layer code is the aggregation by its grouping ({0,1}{2,3}, {0}{1,2,3}, {0,1,2}{3}) and keeps the total thickness |
| LayersManager.MakeThreeLayers | layers_manager.py:79-113 | fails iff the code is not '1-1-2', '1-2-1' or '2-1-1'; otherwise three layers with the grid and ambient indices copied |
| LayersManager.OneOneTwo | layers_manager.py:83-89 | three layers framed by the original ambient indices, grid copied; the first two tissues pass through unchanged |
| LayersManager.OneTwoOne | layers_manager.py:91-97 | three layers framed by the original ambient indices, grid copied; the outer tissues' absorption and thickness pass through unchanged |
| LayersManager.TwoOneOne | layers_manager.py:99-105 | three layers framed by the original ambient indices, grid copied; the last two tissues pass through unchanged |
| LayersManager.SchemeOneOneTwo | layers_manager.py:83-89 | '1-1-2' is the aggregation by {0}{1}{2,3} and keeps the total thickness |
| LayersManager.SchemeOneTwoOne | layers_manager.py:91-97 | '1-2-1' is the aggregation by {0}{1,2}{3} and keeps the total thickness |
| LayersManager.SchemeTwoOneOne | layers_manager.py:99-105 | '2-1-1' is the aggregation by {0,1}{2}{3} and keeps the total thickness |
| LayersManager.MakeThreeLayersAggregates | layers_manager.py:83-105 | each three-layer code is the aggregation by its grouping and keeps the total thickness |

## Left out

- Transcendentals and scipy are parameters; their numerical behaviour is not modelled. This covers:
  - `np.log` in Sturges' rule (statistic.py:24);
  - `np.sqrt` (statistic.py:38, monte_carlo_simulation.py:46);
  - pi;
  - `norm.cdf`, `expon.cdf`, `t.ppf`, `chi2.ppf` and `chi2.cdf` (statistic.py:42-48, 68-81).
- The histogram is an input, not computed: `np.arange` with a float step and `np.histogram` bin assignment (statistic.py:30-32).
- The exponential rate `1 / m` (statistic.py:76) only feeds the exponential bin probabilities. Those probabilities are an input.
- The geometric rescaling with sines and pi (monte_carlo_simulation.py:90-117) is floating-point trigonometry.
- The random placeholder kernel `mc` (monte_carlo_simulation.py:121-128) is nondeterministic. Its output is the `RawCounts` input.
- Interpolation, NaN replacement, sorting and the file write in `get_analysis_data` (monte_carlo_simulation.py:135-150) are library calls and I/O.
- Display and UI are not part of this model: `tableA`, `tableB`, `barGraph`, main.py and layer_model_chart.py.
- Floating-point rounding: every value is a real number.
- In-place mutation of the output arrays (monte_carlo_simulation.py:74-76) is modelled as a function returning new fields.
- Simulation.NormalizeAndReduce: requires a non-zero photon count. With zero, numpy divides to inf/NaN with a warning instead of raising, and NaN is not modelled here.
- Simulation.CriticalCosine: a negative radicand, possible only with a negative index, gives NaN from `np.sqrt`. The model hands it to the `sqrt` parameter. The `ZeroDivision` failure is the behaviour of plain Python floats, as in the config.py stack. The dictionaries that `LayersManager` returns hold `np.float64` indices (layers_manager.py:17-24); for those, a zero index below a negative one makes `(n0**2) / (n1**2)` infinite with a warning, `np.sqrt` returns NaN, and the record is built. That NaN record is not modelled.
- Simulation.InitializeInput: `nl`, `nz`, `nr` and `na` are natural numbers. A negative `nl` (an empty loop) and a negative `na` (a negative angular width) are not modelled. A dictionary without one of the keys raises `KeyError`, which is not modelled.
- Simulation.InitializeInput: `initialize_input` does not check that `len(n) == len(d) + 2` or that the thicknesses are positive; it fails only through indexing or division. The model does the same. `n_below = n[-1]` is the last entry of `n` whatever `nl` is. Surplus entries of `mua`, `mus`, `g` and `d` beyond `nl` are ignored. Positive thicknesses appear only as a hypothesis of `InitializeInputStack`.
- LayersManager.MakeOneLayer: requires four tissue layers, six indices and four of every coefficient. `make_one_layer` itself averages or sums `mua`, `mus`, `g` and `d` in full, whatever their length, and fails only when `n` is too short for `n_full[0]`, `n_full[5]` and `n_full[1:4]`. Other lengths are not modelled.
- LayersManager.MakeTwoLayers, LayersManager.MakeThreeLayers: require four tissue layers, six indices and four of every coefficient. The source indexes fixed positions, so shorter arrays raise `IndexError` or average an empty slice to NaN, and entries past the fourth are ignored. Neither case is modelled.
- The default arguments `scheme='2-2'` of `make_two_layers` (layers_manager.py:43) and `scheme='1-1-2'` of `make_three_layers` (layers_manager.py:79) are not modelled: the scheme code is always passed explicitly.
- Statistic.NewAnalyzer: requires `logN >= 0`, which is what `np.log(N)` gives for a non-empty sample.
- Statistic.ConfidenceIntervals: requires positive quantiles and a positive `sqrt(N)`, which hold once N >= 2. The degenerate quantiles for N = 1 are not modelled: `calculate` already returns early then, because h = 0.
- Statistic.Calculate: states the mean as `mean * N == sum(x_i n_i)` rather than as a quotient. Its bounds are a separate lemma, `Statistic.MeanWithinMidpoints`.

## Findings

| source | as written | input that shows it | evidently intended | confidence | as-written member | corrected member |
|---|---|---|---|---|---|---|
| layers_manager.py:31 | `np.mean(n_full[1:4])` averages the indices of the first three tissue layers only, while `mua`, `mus`, `g` and `d` use all four | the default stack: `n = [1.0, 1.37, 1.43, 1.33, 1.37, 1.0]` gives 4.13/3 ≈ 1.37667 rather than 5.5/4 = 1.375 | `np.mean(n_full[1:5])`, the mean over all four tissue layers, matching the other schemes' `n_f[a+1:b+1]` slices | not executed | LayersManager.MakeOneLayer (exhibited by LayersManager.OneLayerDefaultIndex and LayersManager.OneLayerDiscrepancy) | LayersManager.MakeOneLayerCorrected |
