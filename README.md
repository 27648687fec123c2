# Line-by-line radial velocity: the core of `lbl/science/general.py`

This project models, in Dafny, the core of the line-by-line (LBL) radial
velocity computation of the `lbl` package:

- the build path of the reference line table (`make_ref_dict`): pairs of
  consecutive mask lines inside each spectral order;
- the pixel width of the high-pass filter (`get_velo_scale`);
- the coarse systemic velocity from a cross-correlation with the line mask
  (`rough_ccf_rv`), up to the Gaussian fit;
- the sliding-box noise model (`estimate_noise_model`);
- the Bouchy (2001) estimator of one line's velocity shift
  (`bouchy_equation_line`);
- `compute_rv` itself: the high-pass of the spectrum, the choice of the first
  systemic velocity, the passes over every line of the table (gating, weight
  mask, Bouchy projections, table writes), the sigma-ratio filter, the
  convergence loop, and the final writes to the table and to the per-exposure
  archive arrays.

Floats are exact reals. A value that is NaN or infinite in the source is
`None` in the `Missing.Option` type: the model does not tell NaN from an
infinity, so it treats both as `nansum` treats NaN (see "## Left out" for
what this changes). Within that convention, every division by zero, empty
`nansum` and `sqrt`-of-a-sum edge case that the source meets is written out,
except in the two edge corrections of the line weight mask: the start
correction is a parameter, and the end correction is written out but its
value for a flat grid step (a division by zero, lines 750-753) is a parameter
(see "## Left out"). Numerics that
live in other modules (splines, low-pass filter, `estimate_sigma`,
`odd_ratio_mean`, `curve_fit`, the chi-square survival function, the Doppler
shift, medians) are function-valued parameters, collected in the `Numerics`
datatypes; the model states what is proved for every choice of them, under
the few assumptions named in `ComputeRv.Sane`.

Module by module (one file each): `Missing`, `Bouchy`, `VeloScale`,
`RefTable` (the table, a class whose columns `compute_rv` rewrites in place),
`NoiseModel`, `RoughCcf`, `LineFit` (one line of one pass), `Bootstrap` (the
first-velocity tests), `ComputeRv`.

Three behaviours of the code as written are kept in the model and stated by
lemmas, because the rest of the program runs with them:

- both edge corrections of the line weight mask write `weight_mask[0]`
  (lines 748 and 753): `LineFit.EndOverlapOverwritesFirstWeight`;
- the third-derivative projection is stored in `ddv`/`ddvrms` over the
  second-derivative one (lines 795 and 801), so `DDDV` and `DDDVRMS` stay all
  NaN: `ComputeRv.ThirdProjectionInDdv` and `ComputeRv.Published`;
- a line that lost its keep flag is measured again on the pass with index 1
  (line 706): `LineFit.FlagIgnoredOnPassOne`.

The velocity taken from the archive when no coarse CCF is run is that of the
LATEST stored date (`np.argmin(mjdate - mjdate_all)` at line 588), which is
not the closest date when some stored date lies after the current one:
`Bootstrap.ClosestSlot`, `Bootstrap.LatestNotClosest`.

## Model

Three members carry no row of their own because lemmas state what they mean:
`LineFit.LineStep` (the gate and measurement of lines 706-755) is described by
`LineFit.MeasuredLineShape`, `LineFit.NarrowLinesLoseFlag` and
`LineFit.FlagIgnoredOnPassOne`; `Bouchy.Line` and `Bouchy.Error` (lines
458-481) by `Bouchy.Value` and `Bouchy.ErrorTimesSignal`; and
`ComputeRv.Converged` (line 847) by `ComputeRv.StopsAtFirstConvergence`.

| member | source | states |
|---|---|---|
| VeloScale.Trunc | lbl/science/general.py:189 | `int()` truncates toward zero: the result is within one of the argument, on the argument's side of zero |
| VeloScale.GetVeloScale | lbl/science/general.py:186-194 | the width is odd and is the truncated quotient or one more; undefined (`None`) exactly when the pixel velocity step is zero |
| Missing.MinOf | lbl/science/general.py:113 | `np.min`: an element no larger than any other |
| Missing.MaxOf | lbl/science/general.py:114 | `np.max`: an element no smaller than any other |
| RefTable.Inside | lbl/science/general.py:116-117 | every selected mask line lies strictly inside the order's range, and every mask line strictly inside it is selected |
| RefTable.InsideIsInRangeSubsequence | lbl/science/general.py:116-117 | the selection keeps mask order and multiplicity: it is the mask read at the increasing list of exactly the in-range positions |
| RefTable.Select | lbl/science/general.py:116-117 | the selection loop returns the mask lines strictly inside the range |
| RefTable.BuildRows | lbl/science/general.py:111-133 | the order loop builds exactly the specified line rows |
| RefTable.AppendPairs | lbl/science/general.py:121-133 | one order's appends extend the columns by that order's pairs |
| RefTable.CountOrderAppend | lbl/science/general.py:121 | the count of lines of an order is additive over concatenation |
| RefTable.CountUniform | lbl/science/general.py:121 | a block tagged with one order counts fully for it and not at all for others |
| RefTable.LinesPerOrder | lbl/science/general.py:119-121 | after the first k orders, order o has max(n - 1, 0) lines (n its survivors) if o < k, else none |
| RefTable.OrdersSorted | lbl/science/general.py:111-121 | the ORDER column is non-decreasing and names orders of the grid |
| RefTable.ConsecutiveLinesShareEnds | lbl/science/general.py:123-125 | within an order each line ends where the next starts |
| RefTable.LinesArePairsOfSurvivors | lbl/science/general.py:121-133 | every row is a pair of consecutive survivors of its order, with WEIGHT_LINE and XPIX from the first |
| RefTable.BuiltTableShape | lbl/science/general.py:103-141 | the built table has the per-order counts, sorted orders and shared ends above |
| RefTable.LinesInsideTheirOrder | lbl/science/general.py:113-125 | both ends of every line lie strictly inside its order's wavelength range |
| RefTable.InsideKeepsIncreasing | lbl/science/general.py:116-117 | selecting from a sorted mask keeps it sorted |
| RefTable.LinesHavePositiveWidth | lbl/science/general.py:123-125 | with a sorted mask every line starts before it ends |
| RefTable.ReferenceTable.Build | lbl/science/general.py:103-157 | the new table holds the built rows, the diagnostic columns zero, and no velocity columns |
| NoiseModel.Centres | lbl/science/general.py:426 | `np.arange(0, n, p)` has ceil(n / p) entries |
| NoiseModel.CentresAreMultiples | lbl/science/general.py:426 | a pixel is a box centre iff it is a multiple of the step inside the order |
| NoiseModel.WindowInOrder | lbl/science/general.py:432-438 | every clamped box holds its centre, stays inside the order and spans at most 2p pixels |
| NoiseModel.Residuals | lbl/science/general.py:424 | a residual is finite iff both spectrum and model are |
| NoiseModel.BoxSigma | lbl/science/general.py:440-442 | the box sigma, a zero sigma becoming NaN |
| NoiseModel.Knots | lbl/science/general.py:445-449 | the valid centres and their sigmas, of equal length |
| NoiseModel.KnotsCount | lbl/science/general.py:445-447 | there are as many knots as valid sigmas |
| NoiseModel.KnotsIncreasing | lbl/science/general.py:449 | the knots are strictly increasing, so the interpolant is defined |
| NoiseModel.KnotsAreValidSigmas | lbl/science/general.py:445-449 | each knot value is a valid sigma, and each valid sigma is a knot at its own centre |
| NoiseModel.InterpWithinRange | lbl/science/general.py:449-451 | the linear interpolant with constant extrapolation stays within the range of the knot values |
| NoiseModel.InterpAtKnot | lbl/science/general.py:449-451 | the interpolant passes through every knot |
| NoiseModel.RowFromSigmas | lbl/science/general.py:447-455 | a row is present at every pixel iff more than two sigmas are valid, all NaN otherwise |
| NoiseModel.Sigmas | lbl/science/general.py:428-442 | one sigma per box centre |
| NoiseModel.CentresIncreasing | lbl/science/general.py:426 | the centres increase |
| NoiseModel.Noise | lbl/science/general.py:420-457 | the noise model has the spectrum's shape |
| NoiseModel.EstimateNoiseModel | lbl/science/general.py:408-457 | the order and box loops compute exactly the specified noise model |
| NoiseModel.SparseRowsAreMissing | lbl/science/general.py:447-455 | a row's pixel is present iff more than two boxes gave a valid sigma |
| NoiseModel.RowMatchesBoxSigma | lbl/science/general.py:440-451 | a present row equals each valid box sigma at its box centre |
| NoiseModel.RowWithinRange | lbl/science/general.py:449-451 | sigmas in (0, hi] give a row in (0, hi] |
| NoiseModel.SigmasPositive | lbl/science/general.py:440-442 | with a non-negative estimator every valid box sigma is positive (zeros became NaN) |
| NoiseModel.NoiseWithinSigmaRange | lbl/science/general.py:420-457 | every present noise value is positive and at most the largest valid box sigma |
| Bouchy.Value | lbl/science/general.py:479 | the value is finite iff Σv² ≠ 0, and then value·Σv² = Σ diff·v |
| Bouchy.DotScale | lbl/science/general.py:479 | Σ (k·v)·w = k·Σ v·w |
| Bouchy.DotCombine | lbl/science/general.py:479 | Σ (a·x + b·y)·w = a·Σ x·w + b·Σ y·w |
| Bouchy.RecoversScale | lbl/science/general.py:479 | a difference that is k times the derivative is measured as exactly k |
| Bouchy.ValueIsLinear | lbl/science/general.py:479 | the value is linear in the difference vector |
| Bouchy.SumSquaresNonNegative | lbl/science/general.py:479 | Σv² ≥ 0 |
| Bouchy.PixelWeightIsRatio | lbl/science/general.py:475-477 | 1/rms_pix² times mean_rms² is v² |
| Bouchy.InverseVarianceIsScaledSumSquares | lbl/science/general.py:475-477 | Σ 1/rms_pix², times mean_rms², is Σv² |
| Bouchy.ErrorTimesSignal | lbl/science/general.py:475-477 | for a non-zero mean rms, error² · Σv² = mean_rms² |
| RoughCcf.OverlapMask | lbl/science/general.py:284-312 | the mask is true exactly at the kept pixels (overlap passes for several orders, finiteness alone for one) |
| RoughCcf.FlattenRowKept | lbl/science/general.py:304-305 | each flattened point of a row is a kept pixel's (wavelength, flux) |
| RoughCcf.FlattenedPointsAreKept | lbl/science/general.py:304-315 | every point given to the science spline is a kept pixel |
| RoughCcf.Arange | lbl/science/general.py:320 | the grid has the `np.arange` length |
| RoughCcf.ArangeCovers | lbl/science/general.py:320 | with a positive step the grid starts at rv_min, stays below rv_max, and its next point would reach rv_max |
| RoughCcf.CcfLinearInWeights | lbl/science/general.py:326-330 | the CCF is linear in the line weights |
| RoughCcf.CcfVector | lbl/science/general.py:322-330 | the CCF loop fills each velocity's weighted sum |
| RoughCcf.FirstArgMax | lbl/science/general.py:335 | `np.argmax`: the first index of the largest value |
| RoughCcf.Seed | lbl/science/general.py:337-345 | the guess centres on the peak velocity with the e-width guess and zero slope; its dc level is the median of the CCF and its amplitude the peak minus that median |
| RoughCcf.Ccf | lbl/science/general.py:320-330 | one CCF value per velocity of the grid |
| RoughCcf.RoughCcfRv | lbl/science/general.py:284-352 | defined iff the velocity grid is non-empty; then the velocity and e-width of the Gaussian fitted from the first CCF peak |
| Missing.Ceil | lbl/science/general.py:729 | `np.ceil`: the ceiling lies in [x, x + 1) |
| LineFit.WeightMask | lbl/science/general.py:743-753 | x_end - x_start + 1 weights, all 1 but the first |
| LineFit.EndWeight | lbl/science/general.py:750-753 | the weight lost, times the grid step, is the distance of `ww_ord[x_end]` beyond the line end; the weight lies in (0, 1] when that distance is under one grid step |
| LineFit.EndOverlapOverwritesFirstWeight | lbl/science/general.py:743-753 | the end correction overwrites the start correction in the first weight, and the last weight stays 1 |
| LineFit.MeanXpix | lbl/science/general.py:755-757 | finite iff the weights do not sum to zero; then mean·Σw = Σ w·x |
| LineFit.UniformSums | lbl/science/general.py:755-757 | unit weights sum to n, and their pixel sum is that of an arithmetic series |
| LineFit.MeanXpixOfFullPixels | lbl/science/general.py:755-757 | with unit weights the mean pixel is the middle of the window |
| LineFit.DiffSegment | lbl/science/general.py:775-777 | a residual is finite iff science and model are |
| LineFit.MeanRms | lbl/science/general.py:779-783 | the mean rms is finite iff the weights do not sum to zero |
| LineFit.Chi2 | lbl/science/general.py:810 | a NaN mean rms gives chi² 0; a zero mean rms gives an infinite chi² iff some residual is finite and non-zero |
| LineFit.NanSumNonNegative | lbl/science/general.py:810 | `nansum` of non-negative terms is non-negative |
| LineFit.Chi2NonNegative | lbl/science/general.py:810 | a finite chi² is never negative |
| LineFit.RmsRatio | lbl/science/general.py:804 | finite iff `nanstd` is and the mean rms is finite and non-zero |
| LineFit.Measure | lbl/science/general.py:743-810 | the measured window is [x_start, x_end] with x_end - x_start + 1 pixels and weights |
| LineFit.FlagIgnoredOnPassOne | lbl/science/general.py:706-707 | a flagged line is skipped on every pass but index 1, where it is measured as a good line |
| LineFit.NarrowLinesLoseFlag | lbl/science/general.py:729-733 | a visited line keeps its flag iff it had it and is at least the minimum width |
| LineFit.MeasuredLineShape | lbl/science/general.py:706-755 | a line is measured iff visited and its window plus one pixel lies inside the order; window bounds and weights then |
| LineFit.LineRecoversShift | lbl/science/general.py:770-789 | a residual equal to k times the first derivative is measured as a shift of k |
| Bootstrap.ContainsFP | lbl/science/general.py:571 | true iff the name contains "FP" |
| Bootstrap.ClosestSlot | lbl/science/general.py:588 | the chosen slot holds the latest stored date, and is the first such slot |
| Bootstrap.LatestNotClosest | lbl/science/general.py:588 | with dates [10, 20] and an exposure at 10, slot 1 is chosen, not the exact match |
| ComputeRv.HighPassed | lbl/science/general.py:554-559 | the high-passed spectrum has the spectrum's shape and the same missing pixels |
| ComputeRv.Subtract | lbl/science/general.py:559 | subtraction keeps the length and the missing pixels |
| ComputeRv.HighPass | lbl/science/general.py:554-559 | the order loop succeeds iff every order's width is defined, and then yields the high-passed spectrum |
| ComputeRv.Gates | lbl/science/general.py:700-739 | one gate per line |
| ComputeRv.UptoStep | lbl/science/general.py:760-810 | processing one more line replaces exactly that line's entry when it is measured |
| ComputeRv.FitUptoStep | lbl/science/general.py:789-801 | one more line changes only that line's fit entries |
| ComputeRv.RecordUptoStep | lbl/science/general.py:760-810 | one more line changes only that line's table entries |
| ComputeRv.Store | lbl/science/general.py:760-810 | a measured line writes its MEANXPIX, MEANBLAZE, RMSRATIO, NPIXLINE and CHI2 entries and nothing else |
| ComputeRv.Visit | lbl/science/general.py:706-810 | the writes of one gated line bring the fit arrays and table columns to their state after that line, leaving the other columns untouched |
| ComputeRv.Sweep | lbl/science/general.py:700-810 | the line loop leaves the fit arrays and table columns as every line's gate specifies, other columns untouched |
| ComputeRv.Rms | lbl/science/general.py:537-542 | the noise has the spectrum's shape; with the noise-model switch on every pixel is 0 (never replaced later), otherwise it is the sliding-box noise model of the pass (line 674) |
| ComputeRv.EstimateRms | lbl/science/general.py:673-674 | the noise of a pass, estimated unless the switch is on |
| ComputeRv.Orders | lbl/science/general.py:637-722 | every order's arrays are consistent and every line can read its order |
| ComputeRv.Quotient | lbl/science/general.py:813 | dv/dvrms is finite iff both are and dvrms is non-zero, and then it times dvrms is dv |
| ComputeRv.Nsig | lbl/science/general.py:813-817 | the kept sigma ratios are no more than the lines |
| ComputeRv.NsigMembers | lbl/science/general.py:813-817 | a value is kept iff it is some line's finite ratio strictly within the threshold |
| ComputeRv.NsigInLineOrder | lbl/science/general.py:813-817 | the ratios handed to `estimate_sigma` keep line order and multiplicity: they are the finite ratios read at the increasing list of exactly the lines whose ratio lies strictly within the threshold |
| ComputeRv.Shifted | lbl/science/general.py:828 | `dv + sys_rv - berv` keeps the length |
| ComputeRv.Init | lbl/science/general.py:595-626 | before the first pass every line is kept, every fit value and `rv_final` entry is NaN, `stddev_nsig` is NaN, the table columns and velocity are as given, and no pass is recorded |
| ComputeRv.Step | lbl/science/general.py:630-830 | one pass appends one result to the history and moves the systemic velocity by its `rv_mean` |
| ComputeRv.Schedule | lbl/science/general.py:628-849 | the loop of passes never shortens the history |
| ComputeRv.PassOfAppends | lbl/science/general.py:630-830 | the pass function appends one result per pass and moves the velocity by it |
| ComputeRv.Iterate | lbl/science/general.py:628-849 | the passes of `compute_rv` keep the state's shape |
| ComputeRv.Pass | lbl/science/general.py:630-849 | one pass on the table in place is the specified step; only the per-line columns change |
| ComputeRv.Refine | lbl/science/general.py:628-849 | the loop with its convergence `break` yields the specified run of passes on the table |
| ComputeRv.PassesWithinBudget | lbl/science/general.py:628-630 | a run makes at least one pass when budget remains and never more than the budget, extending the history |
| ComputeRv.RunWithinBudget | lbl/science/general.py:628-630 | the passes of one call, from the initial state, number at least one when the budget is not zero and never more than the budget |
| ComputeRv.StopsAtFirstConvergence | lbl/science/general.py:847-849 | no pass before the last converged, and a run ending early ends on a converged pass |
| ComputeRv.VelocityAccumulates | lbl/science/general.py:826-830 | the final systemic velocity is the first plus the sum of every pass's `rv_mean` |
| ComputeRv.ClearedStaysCleared | lbl/science/general.py:706-733 | a flag each pass leaves cleared stays cleared over a run |
| ComputeRv.PassKeepsCleared | lbl/science/general.py:706-733 | a single pass never sets a keep flag back |
| ComputeRv.KeepNeverRestored | lbl/science/general.py:595-849 | a line that lost its keep flag never regains it within the call |
| ComputeRv.SkippedLinesKeepTheirValues | lbl/science/general.py:706-707 | on passes other than index 1 an unflagged line's fit values and table entries are unchanged |
| ComputeRv.ThirdProjectionInDdv | lbl/science/general.py:788-801 | after a pass a measured line's DDV/DDVRMS hold the third-derivative projection, DV/DVRMS the first |
| ComputeRv.Start | lbl/science/general.py:569-590 | the first velocity: coarse CCF (keeping a given e-width), zero for a Fabry-Perot source, or the latest archived velocity; `None` iff the CCF grid step is zero or the grid empty |
| ComputeRv.ChiValid | lbl/science/general.py:863-864 | one chi-square validity per line |
| ComputeRv.Negated | lbl/science/general.py:854 | `-rv_final` keeps the length |
| ComputeRv.Setting | lbl/science/general.py:553-559 | what the passes work on is consistent: shaped spectrum, lines that name orders |
| ComputeRv.Finish | lbl/science/general.py:854-864 | RV is minus `rv_final`, DVRMS/DDV/DDVRMS come from the fit, DDDV/DDDVRMS are all NaN, CHI2_VALID_CDF comes from the last pass's columns |
| ComputeRv.Archive | lbl/science/general.py:869-871 | only slot `sci_iteration` of each archive array changes, to `sys_rv - berv` and `mjdate` |
| ComputeRv.Converge | lbl/science/general.py:628-871 | the run of passes, then the table and archive writes, with 1 ≤ passes ≤ budget |
| ComputeRv.ComputeRv | lbl/science/general.py:484-908 | fails iff an order's filter width or the coarse CCF is undefined, leaving everything unchanged; otherwise the table, archive and outputs are those of the specified run, RESET_RV iff the passes reached the maximum good count |

## Left out

- The noise-model interpolant (`mp.iuv_spline(..., k=1, ext=3)`, line 449) is modelled concretely by `NoiseModel.Interp`: piecewise linear between the knots and constant beyond the end knots. `NoiseModel.RowWithinRange` and `NoiseModel.NoiseWithinSigmaRange` depend on this choice.
- The other splines, the low-pass filter, `estimate_sigma`, `odd_ratio_mean`, `nanstd`, the weight-mask start correction and the end weight of a flat grid step, `nanmedian`, the Doppler shift and square roots are not modelled: they are function parameters, and only the properties named in `ComputeRv.Sane` (length-preserving filter, template of the spectrum's shape, non-decreasing wavelength-to-pixel mapping) are assumed of them.
- `get_scaling_ratio` and the construction of the shifted template and its derivatives (lines 637-668) are one function parameter `models(spectrum, velocity)`; the debug template `model0` only feeds plots and is left out.
- `curve_fit` and the Gaussian model are a parameter `fit`; the chi-square survival function is a parameter `chi2Valid`.
- Loading the table from disk (lines 74-100) and writing it (lines 161-168) are file I/O and are left out; the table is built in memory.
- The instrument calls (wave solution, BERV, mid-exposure date, parameters) become inputs of `ComputeRv.ComputeRv`.
- LineFit.WeightMask: the start correction at line 747 also writes `ww_ord[x_start + 1]` in place (a chained assignment), which changes the grid that later lines of the same pass read, and the same line's end correction when `x_end` is `x_start` or `x_start + 1` (lines 750-752 read `ww_ord[x_end]` and `ww_ord[x_end + 1]`); the model keeps the grid unchanged and takes the start weight as a parameter `startWeight`. The end correction (lines 750-753) is `LineFit.EndWeight`, written out on the unchanged grid; when `ww_ord[x_end + 1] == ww_ord[x_end]` the source divides by zero and stores an infinite or NaN weight, which the model's real weights cannot hold, so that one value is the parameter `endWeight`.
- NaN values in the wavelength grid, the template derivatives and the blaze are not modelled (those arrays are reals); NaN in the spectrum, model, noise and results is.
- ComputeRv.ComputeRv: the archive arrays hold reals only; a NaN stored date, which `np.argmin` would pick first, is not modelled.
- `odd_ratio_mean` is taken to return finite values.
- The single-order branch of `rough_ccf_rv` is modelled by the same mask method; the plot of the CCF is left out.
- RoughCcf.Arange: `np.arange` over floats may produce one element more or less through rounding; the model uses exact reals.
- The noise box half-width is the default `npoints = 100`.
- Plotting, logging, timing (`TOTAL_DURATION`, `smart_timing`) and the debug plot dictionary are left out.
- The high-pass applies the low-pass filter to the wavelength row (line 559) as written; the model keeps this.
- ComputeRv.HighPass: the source subtracts in place from the caller's `sci_data` array (line 558), so the caller sees the high-passed spectrum after the call; `HighPass` returns a new spectrum and the model does not capture that caller-visible update.
- LineFit.Zeroed: an infinite spectrum, model or derivative pixel inside a line's window makes the source's `nansum` infinite (and `dv` infinite, line 479); the model drops it like NaN and gives a finite sum.
- LineFit.Chi2: an infinite residual gives an infinite `CHI2` in the source (line 810); the model drops that pixel.
- LineFit.RmsRatio: when the weights sum to zero `mean_rms` is infinite and the source's `RMSRATIO` is `nanstd / inf = 0` (line 804); the model gives `None`.
- ComputeRv.Quotient: a finite `dv` over an infinite `dvrms` is 0 in the source, so that line enters the sigma-ratio set of line 813; the model gives `None` and leaves it out.
- ComputeRv.ComputeRv requires every line to start no later than it ends (`WAVE_START <= WAVE_END`) and the wavelength-to-pixel mapping to be non-decreasing. This excludes more than the source needs: a reversed line whose rounded window is still non-empty (pixel positions 5.0 and 4.5 give `x_start = x_end = 5`) is measured normally by the source, and the model does not cover it. When the window is empty (`x_end = x_start - 1`), `np.ones(0)` at line 743 gives an empty weight mask. For a reversed line one of the edge tests at lines 745 and 750 then holds, and the write to `weight_mask[0]` at line 748 or 753 raises `IndexError`. For an ordered line under a decreasing mapping both tests can fail, and the source records a line with NPIXLINE 0 and a NaN MEANXPIX. A smaller `x_end` makes `np.ones` raise at line 743. None of these cases is modelled.
- ComputeRv.ComputeRv: an exception raised by an external numeric (for example a spline on too few points) is not modelled; only the failures named in its contract are.
