# Two-point correlation functions of halotools, modelled in Dafny

This project models the correlation-function engine in
`halotools/mock_observables/clustering.py`. It covers four entry points:

- `tpcf`: the two-point correlation function ξ(r) in bins of separation;
- `tpcf_jackknife`: ξ(r) together with its covariance matrix, estimated from
  delete-one-subvolume resamples of a cubic box;
- `redshift_space_tpcf`: ξ(rp, π) on a grid of projected and line-of-sight
  separations;
- `wp`: the projected correlation function. It is ξ(rp, π) summed along the
  line of sight, weighted by the π bin widths.

Each entry point runs the same pipeline, and each stage is a module:

| module | stage |
|---|---|
| `Period` | resolve the `period` argument |
| `Samples` | cap the samples at `max_sample_size` rows |
| `Validation` | refuse inconsistent inputs |
| `Counts` | count data and random pairs |
| `Volumes` | expected counts from the box volume, when no randoms are given |
| `Estimators` | the five estimators (Natural, Davis-Peebles, Hewett, Hamilton, Landy-Szalay) and the counts each one reads |
| `Dispatch` | choose which correlation functions come back |

The entry points themselves are the modules `Tpcf`, `Jackknife`, `Redshift` and
`Projected` (wp). The jackknife bookkeeping is in two further modules:

- `Subvolumes`: raster labels of the cells, per-cell tallies and delete-one
  sample sizes;
- `Covariance`: `jackknife_errors` and the in-place `covariance_matrix` loop.

Each entry point appears twice. One is a specification function (`TpcfSpec`,
`RedshiftSpec`, `WpSpec`, `JackknifeSpec`). The other is a method that
rebinds its variables step by step, as the source does, and is proved equal to
that function.

How the model represents the source:

- **Floating point.** Every per-bin number is a `Value`: either `Finite(v)` on
  exact reals, or `NonFinite` for any inf or nan. Division by zero inside
  numpy array arithmetic gives `NonFinite`, as numpy does. The sample sizes
  handed to the estimator by `tpcf`, `redshift_space_tpcf` and the full
  estimate of `tpcf_jackknife` are Python numbers (`len(...)`, or 1.0 without
  randoms). A zero among them makes the size factor of every estimator but
  Hamilton divide by zero in Python, which raises; this is the error
  `ZeroDivision`. The per-resample sizes of the jackknife are numpy arrays and
  give `NonFinite` instead.
- **Pair counters.** `npairs`, `xy_z_npairs` and `jnpairs` are function
  parameters that return cumulative counts per bin edge. Only their shape is
  assumed (`Counts.CounterShape`, `Counts.Counter2Shape`,
  `Jackknife.JackknifeCounterShape`).
- **Shuffles.** Each `np.random.shuffle` becomes a permutation parameter.
- **Constants.** π^(k/2)/Γ(k/2+1) becomes the parameter `unitBall`, and the π of
  `cylinder_volume` becomes the parameter `pi`.
- **Exceptions.** Every exception becomes an `Err` of `Common.Error`. The model
  names the condition; it does not keep Python's exception type.

## Model

All sources are in `halotools/mock_observables/clustering.py`.

| member | source | states |
|---|---|---|
| Period.ResolvePeriod | halotools/mock_observables/clustering.py:94-103 | With no period, the result is k infinite entries and PBCs are off. A scalar period is broadcast to k entries with PBCs on. A period vector is kept only if it has exactly k entries; otherwise the result is PeriodShape. |
| Period.Min | halotools/mock_observables/clustering.py:125 | `min(period)` is an entry of the period and is at most every entry. |
| Period.Max | halotools/mock_observables/clustering.py:134 | `max(period)` is an entry of the period and is at least every entry. |
| Period.ExceedsHalfMin | halotools/mock_observables/clustering.py:125 | An edge exceeds min(period)/2 exactly when it exceeds half of some entry. |
| Period.MinUnbounded | halotools/mock_observables/clustering.py:129 | `min(period) == inf` exactly when every entry is infinite. |
| Period.MaxUnbounded | halotools/mock_observables/clustering.py:134 | `max(period) == inf` exactly when some entry is infinite. |
| Period.Volume | halotools/mock_observables/clustering.py:191 | `period.prod()` is positive when every side is positive. |
| Samples.Gather | halotools/mock_observables/clustering.py:108-109 | `sample[inds]` keeps the dimension and has one row per index: row i is the sample's row inds[i]. |
| Samples.CapShape | halotools/mock_observables/clustering.py:112-117 | A sample longer than the cap is cut to exactly `max_sample_size` rows: the rows at the first entries of the permutation. A shorter sample is unchanged. Well-shaped rows stay well-shaped. |
| Samples.CapSubMultiset | halotools/mock_observables/clustering.py:112-117 | Downsampling never duplicates a row: the kept rows form a sub-multiset of the original rows. |
| Samples.GatherSubMultiset | halotools/mock_observables/clustering.py:108-109 | Distinct indices select a sub-multiset of the rows. |
| Samples.PrepareSamples | halotools/mock_observables/clustering.py:106-117 | Corrected downsampling. Equal samples stay equal. Each sample is within the cap or unchanged, and dimensions are kept. For unequal samples it is exactly the code as written. |
| Samples.AsWrittenSplitsAutoCorrelation | halotools/mock_observables/clustering.py:106-117 | As written, a sample compared with itself and longer than the cap comes out as two different samples. |
| Samples.PrepareSamplesAgrees | halotools/mock_observables/clustering.py:106-117 | The corrected and as-written steps agree unless the samples are equal and longer than the cap. |
| Samples.PrepareSamplesKeepsRows | halotools/mock_observables/clustering.py:106-117 | Every row kept by downsampling is a row of the original sample. |
| Samples.Downsample | halotools/mock_observables/clustering.py:106-117 | The downsampler, rebinding both samples, produces exactly `PrepareSamples`. |
| Validation.MaxEdge | halotools/mock_observables/clustering.py:125 | `np.max(rbins)` is an edge and is at least every edge. |
| Validation.SeparationCheck | halotools/mock_observables/clustering.py:119-126 | Empty bins or an empty period give EmptyArray. Otherwise the check passes exactly when every edge is within half of every period entry. |
| Validation.RemainingChecks | halotools/mock_observables/clustering.py:127-135 | DimensionMismatch exactly when the dimensions differ. RandomsRequired exactly when no randoms are given and every period entry is infinite. Success exactly when the dimensions match, randoms or a finite entry exist, the estimator name is known, and PBCs imply an all-finite period. |
| Validation.TpcfChecksSound | halotools/mock_observables/clustering.py:94-135 | If the period resolves and tpcf's checks pass, then: edges are within half the period; dimensions agree; bins are non-empty; the estimator is known; PBCs imply a finite box; and without randoms the box is periodic and finite. |
| Validation.TpcfCheckErrors | halotools/mock_observables/clustering.py:125-135 | Each refusal is raised exactly, or only, under its own condition. |
| Validation.RedshiftChecksSound | halotools/mock_observables/clustering.py:817-832 | If redshift_space_tpcf's checks pass, then: there are at least three dimensions; rp edges are within half of period[0:2]; pi edges are within half of period[2]. |
| Estimators.Parse | halotools/mock_observables/clustering.py:82-84 | The known names are exactly the five estimators. |
| Estimators.ParseName | halotools/mock_observables/clustering.py:82-84 | Each estimator's name parses back to it. |
| Estimators.NaturalClosedForm | halotools/mock_observables/clustering.py:236-239 | Natural is (NR1·NR2)/(ND1·ND2)·DD/RR − 1. It is non-finite exactly when a size or RR is zero. |
| Estimators.DavisPeeblesClosedForm | halotools/mock_observables/clustering.py:240-243 | Davis-Peebles is NR2/ND2·DD/DR − 1, since ND1 cancels. It is non-finite exactly when ND1, ND2, NR2 or DR is zero. |
| Estimators.HewettClosedForm | halotools/mock_observables/clustering.py:244-248 | Hewett is the difference of its two scaled ratios over RR. |
| Estimators.HamiltonClosedForm | halotools/mock_observables/clustering.py:249-251 | Hamilton is DD·RR/DR² − 1 and does not depend on the sizes. |
| Estimators.LandySzalayClosedForm | halotools/mock_observables/clustering.py:252-256 | Landy-Szalay is the scaled DD/RR − 2·DR/RR + 1. |
| Estimators.JackknifeFormAgrees | halotools/mock_observables/clustering.py:538-560 | The jackknife copy of the estimator gives the same value as the tpcf copy for every estimator. |
| Estimators.EstimateJackknifeForm | halotools/mock_observables/clustering.py:538-560 | The jackknife copy, applied to whole arrays, equals the tpcf copy. |
| Estimators.UnitSizesReduce | halotools/mock_observables/clustering.py:232-259 | With all four sizes 1.0 and the same array as DR and RR, every estimator returns DD/D − 1. |
| Estimators.RequirementsSound | halotools/mock_observables/clustering.py:261-287 | The requirements table is sound: changing a count the table says is not needed never changes ξ. |
| Estimators.RequirementsTight | halotools/mock_observables/clustering.py:261-287 | The requirements table is tight: every count it asks for can change ξ. Natural needs no DR, Davis-Peebles no RR, and the other three need both. |
| Estimators.Estimate | halotools/mock_observables/clustering.py:232-259 | On whole arrays, the estimate exists exactly when the counts the table asks for were computed. It has one value per bin, each the scalar formula. |
| Estimators.SizesRaiseExactly | halotools/mock_observables/clustering.py:236-256 | The size factors raise exactly for a non-Hamilton estimator with ND1, ND2 or NR2 zero, or NR1 zero for any but Davis-Peebles. |
| Estimators.ScalarEstimate | halotools/mock_observables/clustering.py:236-256 | With Python-number sizes, the estimate fails exactly when the size factors divide by zero (ZeroDivision, checked first) or a required count is missing (MissingCounts); otherwise it is the array estimate. |
| Estimators.EstimateRows | halotools/mock_observables/clustering.py:678-680 | Row r of a count matrix is estimated with sizes n[r], one row per resample. The result exists exactly when the required counts were computed. For Hamilton this is the corrected row layout; see Findings. |
| Volumes.Diff | halotools/mock_observables/clustering.py:190 | `np.diff`: one entry fewer; entry i is s[i+1] − s[i]. |
| Volumes.DiffTelescopes | halotools/mock_observables/clustering.py:1108 | The widths sum to the last edge minus the first. |
| Volumes.ShellVolumes | halotools/mock_observables/clustering.py:148-152 | Shell i has volume V(r[i+1]) − V(r[i]), where V(R) = unitBall·R^k. |
| Volumes.ShellsPositive | halotools/mock_observables/clustering.py:189-190 | For non-negative increasing edges, every shell volume is positive. |
| Volumes.ShellsTile | halotools/mock_observables/clustering.py:189-190 | The shells add up to the ball of the last edge minus the ball of the first. |
| Volumes.Diff2 | halotools/mock_observables/clustering.py:858-859 | The double difference along both axes. |
| Volumes.AnnulusClosedForm | halotools/mock_observables/clustering.py:850-854 | The double difference of π·R²·h is π(rp[i+1]² − rp[i]²)(π[j+1] − π[j]). |
| Volumes.AnnuliPositive | halotools/mock_observables/clustering.py:891-892 | For increasing edges, every annulus volume is positive. |
| Volumes.ExpectedClosedForm | halotools/mock_observables/clustering.py:192-209 | In a box of positive volume, D1R = N1·dv·N1/volume and the cross RR = dv·N1·N2/volume. Both are finite, and the cross form with N1 = N2 is the auto form. |
| Volumes.ExpectedRows | halotools/mock_observables/clustering.py:895-897 | On the rp–π grid, each row of expected counts is the one-dimensional expectation over that row's annuli. |
| Counts.Binned | halotools/mock_observables/clustering.py:157-158 | `np.diff` of cumulative counts: one count per bin, equal to the difference of neighbouring edges. |
| Counts.Binned2 | halotools/mock_observables/clustering.py:858-859 | On the grid: one count per (rp, pi) cell. |
| Counts.PairCounts | halotools/mock_observables/clustering.py:215-230 | Every array has one entry per bin. When the samples are the same, D1D2 and D2D2 are D1D1. |
| Counts.RandomCountsOf | halotools/mock_observables/clustering.py:139-213 | Without PBCs, D1R and RR are always counted, and D2R exactly when the samples differ. With PBCs and randoms, RR exactly when the estimator reads RR, D1R exactly when it reads DR, and D2R only if it also has a different sample2. With analytic randoms, D1R and RR always exist and RR is D1R itself for the auto-correlation. Every array has one entry per bin. |
| Counts.PairCounts2 | halotools/mock_observables/clustering.py:917-933 | On the grid, every array has one entry per cell; for the same samples, every array is D1D1. |
| Counts.RandomCounts2 | halotools/mock_observables/clustering.py:836-913 | The same three branches on the grid, with expected counts over the annulus volumes. |
| Dispatch.Select | halotools/mock_observables/clustering.py:306-321 | The call fails exactly when one of the estimator calls of the branch taken fails, with the error of the first such call in source order. Nothing comes back exactly when the samples differ and both flags are off. Three arrays come back exactly when they differ and both flags are on. |
| Tpcf.SizesFor | halotools/mock_observables/clustering.py:291-298 | With randoms, the sizes are the sample lengths; without them, all are 1.0. |
| Tpcf.Counted | halotools/mock_observables/clustering.py:289-321 | After validation, the only failures are MissingCounts and ZeroDivision. ZeroDivision needs randoms, an estimator other than Hamilton and an empty sample or randoms. Every returned array has one entry per bin, and equal samples give a single ξ. |
| Tpcf.TpcfSpec | halotools/mock_observables/clustering.py:86-321 | tpcf fails only with one of its listed refusals, a missing count or a division by zero, the last only when randoms are given. Every array it returns has one entry per bin. |
| Tpcf.EmptyInputsRaise | halotools/mock_observables/clustering.py:291-321 | With randoms and an estimator other than Hamilton, an empty sample1 or randoms, or an empty sample2 on the cross path, makes tpcf raise ZeroDivision on every branch that estimates. |
| Tpcf.Tpcf | halotools/mock_observables/clustering.py:86-321 | The step-by-step tpcf equals TpcfSpec. |
| Tpcf.PeriodShapeFirst | halotools/mock_observables/clustering.py:94-103 | tpcf returns PeriodShape exactly when the period vector's length is not the dimension. |
| Tpcf.AutoWhenSame | halotools/mock_observables/clustering.py:306-308 | With no sample2, or sample2 equal to sample1, tpcf returns one ξ whatever the flags. |
| Tpcf.MissingCountsExactly | halotools/mock_observables/clustering.py:318-320 | MissingCounts arises exactly for Natural with PBCs, randoms, different samples and only the auto flag, when sample1 and the randoms are non-empty, since it reads an uncounted D1R as RR. |
| Tpcf.NothingWithoutFlags | halotools/mock_observables/clustering.py:309-321 | With both flags off, different samples give no result. The same samples still give the auto ξ. |
| Tpcf.AnalyticAutoCorrelation | halotools/mock_observables/clustering.py:187-201 | In a periodic box without randoms, all five estimators give ξ = DD/D1R − 1 in each bin, where D1R = N1·dv·N1/volume. |
| Redshift.EstimateGrid | halotools/mock_observables/clustering.py:1010-1011 | The estimator on the grid, cell by cell, with one set of sizes. It exists exactly when the required counts exist. |
| Redshift.Counted | halotools/mock_observables/clustering.py:992-1024 | After validation, the only failures are MissingCounts and ZeroDivision. ZeroDivision needs randoms, an estimator other than Hamilton and an empty sample or randoms. Every grid is (rp bins) × (pi bins), and equal samples give one grid. |
| Redshift.RedshiftSpec | halotools/mock_observables/clustering.py:779-1024 | redshift_space_tpcf fails only with one of its refusals, a missing count or a division by zero, the last only when randoms are given. A result implies three or more dimensions and grids of the binned shape. |
| Redshift.EmptyInputsRaise | halotools/mock_observables/clustering.py:994-1024 | With randoms and an estimator other than Hamilton, an empty sample1 or randoms, or an empty sample2 on the cross path, makes redshift_space_tpcf raise ZeroDivision on every branch that estimates. |
| Redshift.RedshiftSpaceTpcf | halotools/mock_observables/clustering.py:779-1024 | The step-by-step redshift_space_tpcf equals RedshiftSpec. |
| Redshift.NeedsThreeDimensions | halotools/mock_observables/clustering.py:820-822 | With fewer than three coordinates, a call with non-empty bins and a well-shaped period is refused. |
| Redshift.AnalyticAutoCorrelation | halotools/mock_observables/clustering.py:889-903 | In a periodic box without randoms, every (rp, pi) cell has ξ = DD/D1R − 1, with D1R taken over the annulus volumes. |
| Projected.IntegrateXi | halotools/mock_observables/clustering.py:1107-1108 | `integrate_2D_xi` gives one value per rp bin: the row of ξ weighted by the π widths. |
| Projected.IntegrateAdd | halotools/mock_observables/clustering.py:1107-1108 | The integral is additive in ξ. |
| Projected.IntegrateScale | halotools/mock_observables/clustering.py:1107-1108 | Scaling ξ by c scales the integral by c. |
| Projected.IntegrateConstant | halotools/mock_observables/clustering.py:1107-1108 | A constant ξ = c integrates to c times the sum of the widths. |
| Projected.ConstantXi | halotools/mock_observables/clustering.py:1107-1108 | A constant ξ = c gives wp = c·(π_last − π_first) in every rp bin. |
| Projected.SinglePiBin | halotools/mock_observables/clustering.py:1107-1108 | A single π bin [0, πmax] gives wp = ξ·πmax. |
| Projected.WpSpec | halotools/mock_observables/clustering.py:1098-1121 | wp fails only with a refusal or error of redshift_space_tpcf (ZeroDivision only when randoms are given) or a result of the wrong arity. It never returns nothing, and every wp array has one entry per rp bin. |
| Projected.Wp | halotools/mock_observables/clustering.py:1098-1121 | The step-by-step wp, which rebinds do_cross, equals WpSpec. |
| Projected.AutoWhenSame | halotools/mock_observables/clustering.py:1104-1105 | With sample2 absent or equal to sample1, wp succeeds exactly when redshift_space_tpcf does, and returns the single auto wp. |
| Projected.MalformedOnlyWithoutFlags | halotools/mock_observables/clustering.py:1111-1121 | When no downsampling happens, wp fails on the shape of the result exactly when redshift_space_tpcf returned nothing. |
| Subvolumes.CellIndexInRange | halotools/mock_observables/clustering.py:467-473 | A coordinate inside [0, Lbox) falls in a cell index 0 ≤ ⌊x/dL⌋ < Nsub. |
| Subvolumes.RasterRoundTrip | halotools/mock_observables/clustering.py:469 | The C-order raster label 1 + i0·n1·n2 + i1·n2 + i2 decodes back to its cell. |
| Subvolumes.RasterInRange | halotools/mock_observables/clustering.py:468-469 | Raster labels lie in 1..n0·n1·n2. |
| Subvolumes.RasterInjective | halotools/mock_observables/clustering.py:469 | Distinct cells carry distinct labels. |
| Subvolumes.CellCount | halotools/mock_observables/clustering.py:468 | `N_sub_vol = prod(Nsub)` is at least 1 on a valid grid. |
| Subvolumes.Label | halotools/mock_observables/clustering.py:467-473 | The label of a point in the box lies in 1..N_sub_vol. |
| Subvolumes.SameLabelSameCell | halotools/mock_observables/clustering.py:472-473 | Two points share a label exactly when they share the cell on all three axes. |
| Subvolumes.Labels | halotools/mock_observables/clustering.py:472-482 | Each point of a sample gets its own label, in 1..N_sub_vol. |
| Subvolumes.Tally | halotools/mock_observables/clustering.py:486-490 | The tally has one entry per subvolume, empty ones included as zeros. Entry r counts the labels equal to r+1. |
| Subvolumes.TallySum | halotools/mock_observables/clustering.py:486-490 | With labels in range, the tally sums to the number of points. |
| Subvolumes.DeleteOneSizes | halotools/mock_observables/clustering.py:632-634 | Resample r keeps N minus the points of subvolume r+1. |
| Subvolumes.DeleteOneTotal | halotools/mock_observables/clustering.py:632-634 | Each point is left out of exactly one resample, so the resample sizes sum to (N_sub_vol − 1)·N. |
| Covariance.Deviations | halotools/mock_observables/clustering.py:594 | `sub - np.mean(sub, axis=0)`: each entry minus the mean of its bin. |
| Covariance.ErrorSquared | halotools/mock_observables/clustering.py:590-599 | The squared jackknife error has one entry per bin: (N−1)/N·Σ(deviation²). |
| Covariance.CovMatrix | halotools/mock_observables/clustering.py:601-616 | The covariance is an Nr × Nr matrix. |
| Covariance.CovarianceMatrix | halotools/mock_observables/clustering.py:601-616 | The triple loop fills a fresh Nr × Nr array with entry (i, j) = (N−1)/N·Σ_k dev[k,i]·dev[k,j], summed in order in `tmp`. |
| Covariance.Accumulate | halotools/mock_observables/clustering.py:611-613 | The innermost loop adds up dev[k,i]·dev[k,j] over the resamples, in order, into `tmp`. |
| Covariance.CovSymmetric | halotools/mock_observables/clustering.py:606-614 | The covariance is symmetric. |
| Covariance.CovDiagonal | halotools/mock_observables/clustering.py:590-616 | The covariance diagonal is the squared jackknife error. |
| Covariance.ErrorSquaredNonnegative | halotools/mock_observables/clustering.py:594-596 | A finite squared jackknife error is never negative. |
| Covariance.ConstantMean | halotools/mock_observables/clustering.py:594 | The mean of a bin whose resamples all equal x is x. |
| Covariance.CovarianceIndexed | halotools/mock_observables/clustering.py:601-616 | `covariance_matrix` on an N × width array with nr bins: it raises IndexError exactly when nr > 0 and it indexes a row past N or a column past width; otherwise it gives an nr × nr matrix. |
| Covariance.CovarianceIndexedAgrees | halotools/mock_observables/clustering.py:601-616 | On an array of one row per resample and one column per bin, the indexed loop never raises and gives CovMatrix. |
| Covariance.ConstantBinNoError | halotools/mock_observables/clustering.py:593-596 | Resamples that agree in a bin give that bin zero error. |
| Jackknife.SubdivisionFor | halotools/mock_observables/clustering.py:401-402 | An integer Nsub is broadcast to one entry per axis. |
| Jackknife.BoxFor | halotools/mock_observables/clustering.py:403-404 | A number Lbox is broadcast to one entry per axis. |
| Jackknife.BinnedRows | halotools/mock_observables/clustering.py:497 | `np.diff(counts, axis=1)`, row by row. |
| Jackknife.CountAll | halotools/mock_observables/clustering.py:637-670 | Every count array has N_sub_vol+1 rows of per-bin counts. DR exists exactly when the estimator reads DR, and RR exactly when it reads RR. For the same samples, D1D2, D2D2 and D2R are the sample1 arrays. |
| Jackknife.Resample | halotools/mock_observables/clustering.py:673-680 | The full ξ is the estimator on row 0 with the full sizes. Resample ξ k is the estimator on row k+1 with the delete-one sizes of resample k, one row per resample for every estimator (the corrected Hamilton layout; see Findings). Pair counts are used as counted, not subtracted. |
| Jackknife.Counted | halotools/mock_observables/clustering.py:618-700 | The jackknife fails exactly for an estimator other than Hamilton with an empty sample or randoms, and then with ZeroDivision. Otherwise equal samples give one ξ with an Nr × Nr covariance, and nothing comes back exactly for different samples with both flags off. |
| Jackknife.Transpose | halotools/mock_observables/clustering.py:560 | `xi.T`: entry (i, k) of the transpose is entry (k, i) of the matrix. |
| Jackknife.CovariancesAsWritten | halotools/mock_observables/clustering.py:552-560 | The covariances of the resample matrices as written: Hamilton's transposed matrix makes `covariance_matrix` raise exactly when there is at least one bin and the number of bins differs from N_sub_vol, and works over swapped axes when they are equal. The other estimators give CovMatrix. |
| Jackknife.HamiltonLayoutRaises | halotools/mock_observables/clustering.py:552-560 | With 125 resamples and ten bins, the Hamilton covariances as written raise, while the corrected layout returns all three covariance matrices. |
| Jackknife.Assemble | halotools/mock_observables/clustering.py:692-700 | The closing branches return the full estimates followed by their covariances. |
| Jackknife.AssembleInPlace | halotools/mock_observables/clustering.py:682-700 | The closing branches, with the covariances filled in place, equal Assemble. |
| Jackknife.CountedInPlace | halotools/mock_observables/clustering.py:618-700 | The counting, estimating and in-place covariance steps equal Counted. |
| Jackknife.JackknifeSpec | halotools/mock_observables/clustering.py:395-700 | The jackknife fails only with one of its refusals or a division by zero. It never reports missing counts or missing randoms, and a result implies three dimensions. Hamilton uses the corrected row layout. |
| Jackknife.TpcfJackknife | halotools/mock_observables/clustering.py:395-700 | The step-by-step tpcf_jackknife equals JackknifeSpec. |
| Jackknife.AutoWhenSame | halotools/mock_observables/clustering.py:692-693 | With sample2 absent or equal to sample1, the jackknife returns ξ11 and its Nr × Nr covariance. |
| Jackknife.AutoOnlyReturnsBoth | halotools/mock_observables/clustering.py:697-698 | With only the auto flag, it returns (ξ11, ξ22, cov11, cov22). |
| Jackknife.ReturnedCovariance | halotools/mock_observables/clustering.py:682-690 | The returned covariance is symmetric. Its diagonal holds the squared jackknife errors, none of them negative. |

## Left out

- **Pair counters.** `npairs`, `xy_z_npairs` and `jnpairs` live in
  `pair_counters/grid_pairs`, which is not part of this model. They are
  parameters of known shape only.
- **Randomness and output.** `np.random.shuffle` becomes a permutation
  parameter. `print` output is not modelled.
- **Concurrency.** `N_threads`, `comm`, the MPI rank and `Pool` are not
  modelled.
- **Floating point.** Every inf or nan is one value, `NonFinite`. So
  1/inf = 0 and the sign of inf are not modelled, and numbers are exact reals
  rather than doubles.
- **Transcendental constants.** Γ and π in `nball_volume` are the `unitBall`
  parameter, and π in `cylinder_volume` is the `pi` parameter.
- **`jackknife_errors`.** It is modelled as `Covariance.ErrorSquared`, the
  squared error; the final `**0.5` is left out. `tpcf_jackknife` computes the
  errors and then discards them (clustering.py:683-685), so its model does
  not compute them.
- **Exception types.**
  - Refusals are named conditions, not Python exception types.
  - The `.value(estimators)` at clustering.py:132-133 raises AttributeError
    instead of the intended message.
  - An estimator that reads a never-computed array raises TypeError; this
    becomes `MissingCounts`.
- **Scalar bins.** Scalar `rbins` (clustering.py:119-120) are taken to be
  sequences. Scalar `rp_bins`/`pi_bins` are not modelled: clustering.py:812-815
  assigns them to `rbins`, so the scalar is never wrapped.
- **Comparisons with `None`.** `sample2 != None` and `period != None` on arrays
  (clustering.py:397, 448, 450) are read as the presence tests they were meant
  to be.
- **Downsampling the jackknife randoms.** clustering.py:430-435 writes the
  downsampled randoms into `sample1`. That call site is not modelled:
  `Jackknife.WellFormed` requires the randoms to be within the cap.
- **Jackknife box.** `Jackknife.WellFormed` requires every point to lie in
  [0, Lbox) on each axis. A coordinate at or beyond Lbox indexes past the label
  grid, and a negative one wraps around, in numpy.
- **Jackknife Lbox vector.** An Lbox vector must have one entry per axis. A
  length-1 vector, which numpy broadcasts, is not modelled.
- **Jackknife grid.**
  - Dimensions other than three are refused with `UnsupportedDimension`.
    In the source, k > 3 with trailing Nsub entries of 1 happens to work.
  - Nsub entries below 1 are refused with `BadSubdivision`. In the source,
    they fail in numpy's reshape or indexing.
- **Shape mismatches.** A wp result of the wrong arity becomes
  `MalformedResult`: None (both flags off, different samples), or a single
  grid where three are indexed (two different samples that downsampling makes
  equal). Both raise in the source. A three-grid tuple reaching wp's
  single-result branch, which numpy would broadcast, arises only when equal
  samples are split by the downsampling as written; the model uses the
  corrected downsampling, so this case does not occur.
- Samples.Same: `np.all(sample1 == sample2)` is modelled as equality of the
  samples. numpy broadcasts the comparison, so a one-row sample also counts as
  equal to any sample whose rows all equal that row, and an empty sample as
  equal to a one-row sample. In those cases the source takes the auto path and
  the model does not.
- **Other files.** `halotools/empirical_models/factories/model_factory_template.py`
  and `halotools/sim_manager/tests/test_rockstar_hlist_reader.py` are not part
  of this model. They are catalogue orchestration and file I/O around classes
  not shown here.

## Findings

| source | as written | input that shows it | evidently intended | confidence | as-written member | corrected member |
|---|---|---|---|---|---|---|
| halotools/mock_observables/clustering.py:106-117 | sample2 is spared from downsampling when it equals sample1, but sample1 is then downsampled on its own. So an auto-correlation over more than `max_sample_size` rows ends up with two different samples, and the cross-correlation path is taken. The same code appears at 418-429 and 799-810. | One sample of two rows, passed alone or as both samples, with `max_sample_size = 1` | The second sample follows the first when they are the same sample, so the auto-correlation path is kept | not executed | Samples.AsWrittenSplitsAutoCorrelation | Samples.PrepareSamples |
| halotools/mock_observables/clustering.py:552-560 | The jackknife copy of the Hamilton estimator returns `xi.T`, while the other four return one row per resample. Its resample matrix is then Nbins × N_sub_vol, and `covariance_matrix` (601-616) indexes it as N_sub_vol × Nbins: IndexError unless Nbins equals N_sub_vol, and a covariance over swapped axes when they are equal. | `estimator='Hamilton'`, Nsub = 5 (125 subvolumes) and 11 rbins edges (10 bins) | One row per resample, as for the other estimators | not executed | Jackknife.HamiltonLayoutRaises | Jackknife.Resample |
