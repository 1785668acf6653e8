# kima's RVmodel and the showresults argument handling, in Dafny

kima samples the posterior of a radial-velocity model with DNest4. Each sample is one
`RVmodel` object. It holds:

- a set of Keplerian planet components, each with five parameters (period, semi-amplitude K,
  phase phi, eccentricity, argument of periastron omega);
- the systematic velocity background (vsys), a linear-trend slope, instrument offsets, one
  jitter per instrument (or a single extra white-noise term), and a HARPS fiber offset;
- four Gaussian-process hyperparameters eta1..eta4;
- a buffer `mu` with one model velocity per observation, and the GP covariance matrix `C`;
- a `staleness` counter of incremental buffer updates.

This project models the state layer of that class:

- `calculate_mu`: incremental update versus full rebuild of `mu`;
- `calculate_C`: the quasi-periodic kernel and the white-noise diagonal;
- `from_prior` and `perturb`: the Metropolis-Hastings proposal branches;
- `log_likelihood`: the Gaussian and GP branches and the `+infinity` sentinel;
- the Kepler solver (`ecc_anomaly`, `keplerstart3`, `eps3`, `true_anomaly`);
- `print` and `description`, which write one row and the header of the posterior sample file.

It also models the argument handling of `kima-showresults` (pykima/showresults.py): `findpop`,
the token classification of `_parse_args`, and the mapping from flags to plot numbers.

Modules, one per concern:

- `Numerics`: the math library as uninterpreted function values (`Libm`), and IEEE doubles with
  infinities and NaN (`Double`);
- `Observations`: the compile-time switches and the data set;
- `Kepler`: the Kepler solver;
- `Signal`: the planet signal and the systematic terms;
- `Covariance`: the kernel;
- `Likelihood`: the two likelihood branches;
- `DNest`: the random-number stream, the priors and the planet set, all abstract;
- `Proposals`: the parameter record and what each proposal draws;
- `Output`: the column layout of `print` and `description`;
- `RV`: the class `RVModel`, with the buffer `mu` and the matrix `C` as arrays;
- `Lists`: element-by-element appends, and the facts about reordered lists that the sums need;
- `Text`: Python 3's `str.split()`;
- `ShowResults`: `findpop`, `_parse_args` and the plot mapping.

How the model is built:

- The methods of `RVModel` change these fields in place:
  - `CalculateMu` and `CalculateC`;
  - `FromPrior` and `Perturb`, with one helper method per branch.
  - Each loop or group of draws of the C++ code is a method of its own, with its own
    specification; the method for the enclosing code calls them in the source's order.
- Each method is proved against a function of the old state:
  - `Proposals.FromPriorDraw`, `Proposals.Proposal` and the branch functions for what is drawn;
  - `Signal.ModelAt` and `Covariance.CovEntry` for what ends up in `mu` and `C`.
- The ghost field `reflected` records which components' signal `mu` currently holds.
  `Consistent()` states that `mu` equals the systematics plus the signal of `reflected`.
  `CalculateMu` and every branch of `Perturb` preserve it. After `FromPrior` it holds
  whenever the rebuild path was taken.
- `Tracks()` states that `reflected` holds the current components, in some order. A rebuild
  establishes it. It survives an incremental update when the planet step only added
  components (`DNest.GrowthOnly`). A buffer that is consistent and tracks the components
  equals the model recomputed from scratch (`MuIsModel()`, by `RV.RVModel.TrackedIsModel`),
  because the signal does not depend on the order of the components. So after
  `CalculateMu`, `PerturbPlanets` and `Perturb`, the incrementally kept `mu` equals a
  from-scratch recomputation whenever it did before and the planet step only added.
- The random-number generator is a stream of uniforms with a read position. Each prior draw
  says how many uniforms it consumed, so the whole sequence of draws is a function of the
  stream.

Behaviour of the code that the model keeps as written:

- `eps3` multiplies its cubic term by the C++ integer quotient `1/6`, which is 0
  (`Kepler.OneSixthAsWritten`). The correction is therefore of second order only.
- `fmod` keeps the sign of its first argument. The mean anomaly is negative before the time
  of periastron, rather than being reduced into [0, 2 pi).
  - `Kepler.CircularOrbitBeforePeriastron` shows that, for a circular orbit, the true anomaly
    is then minus the mean anomaly.
  - `calculate_mu` places periastron at `t[0] - P phi / (2 pi)`. When phi >= 0, that is at or
    before `t[0]` for P > 0, and so before every observation when the data are in time
    order. The model does not require time order.
- The incremental path is taken while `staleness <= 10`. Up to 11 consecutive incremental
  updates can therefore follow a rebuild (`Proposals.IncrementalRunBound`).
- Offsets are added for instrument ids `1..number_instruments-1` only. Observations of the
  last instrument never receive an offset.
- The value returned by a prior's `perturb` is discarded in every branch except the planet
  branch, so `perturb` returns 0 for those branches.
- Of the values passed to the sentinel, NaN, `+infinity` and `-infinity` all become
  `+infinity`.

## Model

| member | source | states |
|---|---|---|
| Kepler.RefineBounds | src/RVmodel.cpp:638-649 | the refinement `Refine` makes at least one more correction from any count below the cap and at most 100 in all; stopping before the cap means the last correction was within the tolerance, and a last correction above the tolerance means the cap was reached |
| Kepler.EccAnomalyOf | src/RVmodel.cpp:628-651 | the solver starts from keplerstart3 at the fmod-reduced mean anomaly, makes 1 to 100 iterations, and below the cap its last step is within 1e-14 (ecc < 0.8) or 1e-13 |
| Kepler.RefineLoop | src/RVmodel.cpp:638-649 | the while loop with its counter and break returns the estimate of the refinement specification |
| Kepler.EccAnomaly | src/RVmodel.cpp:628-651 | ecc_anomaly returns the eccentric anomaly of the solver specification |
| Kepler.TrueAnomaly | src/RVmodel.cpp:704-714 | true_anomaly returns the principal acos value, or 2 pi minus it when E > pi |
| Kepler.CosineRatioIsCosine | src/RVmodel.cpp:707 | for 0 <= ecc < 1, cos E in [-1, 1] and exact division by the non-zero denominator, the argument of acos lies in [-1, 1] and satisfies cos f (1 - e cos E) = cos E - e |
| Kepler.TrueAnomalyDefinition | src/RVmodel.cpp:704-714 | the true anomaly satisfies Perryman's relation cos f (1 - e cos E) = cos E - e, and the quadrant fix puts f in [pi, 2 pi] when E > pi and in [0, pi] otherwise |
| Kepler.CircularOrbitConvergesAtOnce | src/RVmodel.cpp:628-690 | for a circular orbit the start value is the mean anomaly, the correction is 0 and the solver stops after one iteration |
| Kepler.CircularOrbitTrueAnomaly | src/RVmodel.cpp:704-714 | for a circular orbit within one period after periastron the true anomaly equals the mean anomaly |
| Kepler.CircularOrbitBeforePeriastron | src/RVmodel.cpp:634-636 | within half a period before periastron fmod leaves the mean anomaly negative, and the true anomaly of a circular orbit is then its negation |
| Kepler.TrueAnomalyAtPeriastron | src/RVmodel.cpp:628-714 | at the time of periastron the solver returns E = 0 after one iteration and the true anomaly is 0 |
| Signal.SignalOfConcat | src/RVmodel.cpp:187-206 | the signal of two component lists joined is the sum of their signals, which is what makes the incremental update of mu exact |
| Signal.SignalOfRemove | src/RVmodel.cpp:187-206 | removing one component from the list subtracts exactly its velocity from the signal |
| Signal.SignalOfPermutation | src/RVmodel.cpp:187-206 | the signal does not depend on the order of the components |
| Signal.ModelAtPermutation | src/RVmodel.cpp:186-206 | the model value is the same for any listing of the same components |
| Signal.ModelAtConcat | src/RVmodel.cpp:186-206 | adding components to those whose signal mu holds adds exactly their signal to the model value |
| Signal.VelocityAtPeriastron | src/RVmodel.cpp:199-204 | at the time of periastron a component contributes K (cos omega + e cos omega) |
| Signal.OffsetUpToSelects | src/RVmodel.cpp:158-167 | the loop over offsets adds offsets[obsi - 1] when 1 <= obsi <= number of offsets and nothing otherwise |
| Signal.OffsetAt | src/RVmodel.cpp:158-167 | the offset term is 0 without multiple instruments, offsets[obsi - 1] for the first number_instruments - 1 instruments, and 0 for the last one |
| Observations.WhiteVariance | src/RVmodel.cpp:461-470 | the white-noise variance sig^2 + jitter^2 (jitter per instrument, or extra_sigma) is never negative |
| Covariance.KernelEven | src/RVmodel.cpp:96-97 | the quasi-periodic kernel takes the same value at d and -d |
| Covariance.KernelAtZero | src/RVmodel.cpp:96-97 | the kernel at zero time lag is eta1^2 |
| Covariance.CovarianceStationary | src/RVmodel.cpp:92-116 | an off-diagonal entry depends only on t[i] - t[j] and eta1..eta4; a diagonal entry is eta1^2 plus sig[i]^2 plus the instrument's jitter^2 (or extra_sigma^2) |
| Likelihood.GaussianTerm | src/RVmodel.cpp:472-473 | a point term is finite when its variance is positive and NaN when it is 0 |
| Likelihood.GaussianAccumFinite | src/RVmodel.cpp:461-474 | with positive variances the accumulated log likelihood is finite, with the sum of the point terms as its value |
| Likelihood.GaussianAccumNaNFrom | src/RVmodel.cpp:461-474 | once a point term is NaN the accumulated sum stays NaN |
| Likelihood.GaussianAccumDegenerate | src/RVmodel.cpp:461-474 | a single observation with zero variance makes the whole sum NaN |
| Likelihood.Sanitize | src/RVmodel.cpp:483-486 | the sentinel keeps finite values and turns NaN and both infinities into +infinity |
| Likelihood.GaussianLogLikelihood | src/RVmodel.cpp:461-486 | the non-GP log likelihood is the finite Gaussian sum when every variance is positive, and +infinity when some variance is 0 |
| Likelihood.LogDeterminantFinite | src/RVmodel.cpp:432-434 | with positive finite Cholesky pivots the log determinant is the finite sum of 2 log L(i,i) |
| Likelihood.ExponentFinite | src/RVmodel.cpp:439-441 | with a finite solution the exponent is the finite sum of residual(i) solution(i) |
| Likelihood.GpLogLFinite | src/RVmodel.cpp:419-446 | the GP log likelihood is -N/2 log 2 pi - logdet/2 - exponent/2 when the factorisation is regular |
| Likelihood.LogDeterminantZeroPivot | src/RVmodel.cpp:432-434 | a zero pivot makes the log determinant -infinity |
| Likelihood.GpZeroPivotSentinel | src/RVmodel.cpp:419-486 | a zero pivot makes the GP log likelihood +infinity after the sentinel |
| DNest.GenerateSeq | src/RVmodel.cpp:44-47 | generating a vector draws one value per entry, in order, and only moves the stream forward |
| DNest.PerturbSeq | src/RVmodel.cpp:261-262 | perturbing a vector perturbs each entry in turn and keeps its length |
| DNest.Rng.Rand | src/RVmodel.cpp:224 | rng.rand() returns the next uniform and advances by one |
| DNest.Rng.Generate | src/RVmodel.cpp:40 | a prior's generate returns its draw and advances by the uniforms it used |
| DNest.Rng.Perturb | src/RVmodel.cpp:288 | a prior's perturb returns the new value and its log Hastings factor and advances by the uniforms used |
| DNest.Rng.PlanetsFromPrior | src/RVmodel.cpp:37-38 | planets.from_prior followed by consolidate_diff yields the planet set's draw |
| DNest.Rng.PerturbPlanets | src/RVmodel.cpp:226-227 | planets.perturb followed by consolidate_diff yields the planet set's step and its logH |
| DNest.GenerateEach | src/RVmodel.cpp:44-47 | the loop of generate calls produces the values of the vector draw |
| DNest.PerturbEach | src/RVmodel.cpp:261-262 | the loop of perturb calls produces the values of the vector perturbation |
| Proposals.StalenessAfter | src/RVmodel.cpp:134-180 | the incremental path is taken iff fewer components were added than exist and staleness <= 10; it increments staleness, a rebuild resets it to 0, so staleness never exceeds 11 |
| Proposals.IncrementalRunBound | src/RVmodel.cpp:135-136 | from staleness s at most 11 - s consecutive calls take the incremental path, so a rebuild happens by the 12th call after the last one |
| Proposals.PlanetsDraw | src/RVmodel.cpp:37-38 | the planet draw of from_prior changes only the planet set |
| Proposals.NoiseDraw | src/RVmodel.cpp:40-59 | the noise draw changes only background, offsets, jitters, extra_sigma, fiber offset and slope; the fiber offset only with fibers, the slope only with a trend, vector sizes kept |
| Proposals.ScalesDraw | src/RVmodel.cpp:42-52 | with several instruments offsets and jitters are drawn and extra_sigma kept; otherwise only extra_sigma is drawn |
| Proposals.FiberSlopeDraw | src/RVmodel.cpp:55-59 | the last noise draws change only the fiber offset (only with fibers) and the slope (only with a trend) |
| Proposals.EtaDraw | src/RVmodel.cpp:61-70 | the GP draw changes only eta1..eta4 |
| Proposals.Eta12Draw | src/RVmodel.cpp:63-65 | the first two GP draws change only eta1 and eta2 |
| Proposals.Eta34Draw | src/RVmodel.cpp:67-69 | the last two GP draws change only eta3 and eta4 |
| Proposals.FromPriorDraw | src/RVmodel.cpp:35-70 | from_prior keeps the vector sizes and the log_eta fields, and without a GP leaves eta1..eta4 unchanged |
| Proposals.FromPriorEtaPositive | src/RVmodel.cpp:63-69 | eta1, eta2 and eta4 drawn through exp are positive |
| Proposals.Choose | src/RVmodel.cpp:222-345 | the nested coin flips pick one of four moves, never the hyperparameter move without a GP, using one to three uniforms |
| Proposals.PlanetsProposal | src/RVmodel.cpp:224-229 | the planet move changes only the planet set |
| Proposals.HyperChoice | src/RVmodel.cpp:232-248 | the flips of the hyperparameter branch use one to three uniforms, and exactly one when eta1 is chosen |
| Proposals.HyperPerturbed | src/RVmodel.cpp:233-253 | once a hyperparameter is chosen, only it and its log field change |
| Proposals.HyperProposal | src/RVmodel.cpp:230-254 | the hyperparameter move changes exactly one of eta1..eta4, together with its log field when drawn on the log scale |
| Proposals.HyperProposalKeepsPositive | src/RVmodel.cpp:232-253 | after a hyperparameter move eta1, eta2 and eta4 remain positive |
| Proposals.JittersProposal | src/RVmodel.cpp:257-267 | the jitter move changes only the jitters with several instruments, only extra_sigma otherwise |
| Proposals.SystematicsProposal | src/RVmodel.cpp:288-304 | the systematics move changes only background, offsets, fiber offset and slope; offsets only with several instruments, the fiber offset only with fibers, the slope only with a trend |
| Proposals.BackgroundOffsetsProposal | src/RVmodel.cpp:288-294 | the first systematics draws change only background and the offsets, the offsets only with several instruments and keeping their number |
| Proposals.FiberSlopeProposal | src/RVmodel.cpp:296-304 | the last systematics draws change only the fiber offset (only with fibers) and the slope (only with a trend) |
| Proposals.MoveProposal | src/RVmodel.cpp:222-398 | every move other than the planet move keeps the planet set, and no move changes the vector sizes |
| Proposals.Proposal | src/RVmodel.cpp:215-402 | perturb returns the planet set's logH for the planet move and 0 for every other move, which keeps the planets; vector sizes are kept |
| RV.RVModel.constructor | src/RVmodel.h:27-70 | a new model has an empty planet set, N mean entries, an N x N matrix, number_instruments - 1 offsets and number_instruments jitters |
| RV.RVModel.AddSignal | src/RVmodel.cpp:186-206 | adding components raises each mu[i] by exactly their signal at t[i] |
| RV.RVModel.AddVelocity | src/RVmodel.cpp:199-205 | the loop over observations raises each mu[i] by the component's velocity at t[i] |
| RV.RVModel.VelocityAt | src/RVmodel.cpp:189-203 | a component's velocity at ti is K (cos(f + omega) + e cos omega) at the true anomaly for the period (exp of the parameter with hyperpriors) and periastron t[0] - P phi / (2 pi) |
| RV.RVModel.AssignSystematics | src/RVmodel.cpp:146-178 | the rebuild sets each mu[i] to background + trend + offset + fiber step |
| RV.RVModel.AddTrend | src/RVmodel.cpp:150-156 | the trend loop adds slope (t[i] - t_middle) to every entry |
| RV.RVModel.AddOffsets | src/RVmodel.cpp:158-167 | the offsets loops add to each entry the offset of its instrument, nothing for the last instrument |
| RV.RVModel.AddFiberOffset | src/RVmodel.cpp:169-175 | the fibers loop adds the fiber offset to the entries from index_fibers on and to no other |
| RV.RVModel.CalculateMu | src/RVmodel.cpp:126-213 | staleness follows the update policy; the incremental path adds the added components' signal, the rebuild sets mu to the full model of all components; consistency of mu is kept; the rebuild makes `reflected` track the components, and an incremental update keeps tracking when the added components complete the old list; then mu equals the from-scratch model |
| RV.RVModel.UpdateMu | src/RVmodel.cpp:179-206 | the incremental path increments staleness and adds the added components' signal to mu, keeping consistency |
| RV.RVModel.RebuildMu | src/RVmodel.cpp:146-206 | the rebuild resets staleness to 0 and sets mu to the systematics plus the signal of every component, so mu is consistent afterwards and `reflected` tracks the components |
| RV.RVModel.CalculateC | src/RVmodel.cpp:78-124 | every entry of C is the kernel-plus-white-noise entry of the current parameters, and C is symmetric |
| RV.RVModel.FillC | src/RVmodel.cpp:92-116 | the loops over the upper triangle, mirrored below the diagonal, set every entry of C to its covariance entry |
| RV.RVModel.UpperEntry | src/RVmodel.cpp:96-110 | the value computed for i <= j is the covariance entry (i, j), and also (j, i) off the diagonal |
| RV.RVModel.DrawNoise | src/RVmodel.cpp:40-59 | the noise fields and the stream end as the noise draw specifies |
| RV.RVModel.DrawScales | src/RVmodel.cpp:42-52 | offsets, jitters and extra_sigma end as the scale draw specifies |
| RV.RVModel.DrawFiberSlope | src/RVmodel.cpp:55-59 | the fiber offset and slope end as the last noise draws specify |
| RV.RVModel.DrawEta | src/RVmodel.cpp:61-70 | eta1..eta4 end as the GP draw specifies |
| RV.RVModel.DrawEta12 | src/RVmodel.cpp:63-65 | eta1 and eta2 end as the first two GP draws specify |
| RV.RVModel.DrawEta34 | src/RVmodel.cpp:67-69 | eta3 and eta4 end as the last two GP draws specify |
| RV.RVModel.DrawParameters | src/RVmodel.cpp:37-70 | all parameters end as the from_prior draw specifies |
| RV.RVModel.TrackedIsModel | src/RVmodel.cpp:126-206 | a buffer that holds the systematics plus the signal of the current components, listed in any order, is the model recomputed from scratch |
| RV.RVModel.FromPrior | src/RVmodel.cpp:35-76 | from_prior draws the parameters, then recomputes mu by the update policy, then builds C when there is a GP and leaves C alone otherwise |
| RV.RVModel.PerturbPlanets | src/RVmodel.cpp:224-229 | the planet branch steps the planet set, returns its logH and recomputes mu by the update policy; when the step only added components, tracking is kept and a consistent, tracking buffer ends equal to the from-scratch model |
| RV.RVModel.PerturbHyper | src/RVmodel.cpp:232-253 | the hyperparameter branch (before its calculate_C) changes the parameters as the hyperparameter move specifies and touches neither mu nor C |
| RV.RVModel.ChooseHyper | src/RVmodel.cpp:232-248 | the flips of the hyperparameter branch pick the hyperparameter of the specification and advance the stream by the flips made |
| RV.RVModel.PerturbHyperParameter | src/RVmodel.cpp:233-253 | the chosen hyperparameter, with its log, ends as the hyperparameter draw specifies |
| RV.RVModel.PerturbLogScale | src/RVmodel.cpp:234-236 | log_eta is set to log(eta) and perturbed, and eta becomes the exponential of the result |
| RV.RVModel.HyperBranch | src/RVmodel.cpp:230-256 | the hyperparameter branch draws as specified, then rebuilds C, leaving mu and staleness alone |
| RV.RVModel.PerturbJitters | src/RVmodel.cpp:259-267 | the jitter branch (before its calculate_C) changes the parameters as the jitter move specifies and touches neither mu nor C |
| RV.RVModel.JittersBranch | src/RVmodel.cpp:257-269 | the jitter branch draws as specified, then rebuilds C with a GP and leaves C alone without one; mu and staleness are untouched |
| RV.RVModel.RemoveSystematics | src/RVmodel.cpp:272-286 | the first loop subtracts each observation's systematic term from mu[i] |
| RV.RVModel.RemoveAt | src/RVmodel.cpp:274-285 | one step of the first loop subtracts the systematic term of entry i and changes no other entry |
| RV.RVModel.RestoreSystematics | src/RVmodel.cpp:306-320 | the second loop adds the new systematic term back to mu[i] |
| RV.RVModel.RestoreAt | src/RVmodel.cpp:308-319 | one step of the second loop adds the systematic term of entry i back and changes no other entry |
| RV.RVModel.PerturbSystematics | src/RVmodel.cpp:270-321 | afterwards mu[i] = old mu[i] - S_old(i) + S_new(i); mu is unchanged when no systematic changed; consistency is kept |
| RV.RVModel.PerturbSystematicParameters | src/RVmodel.cpp:288-304 | the draws between the two loops change the parameters as the systematics move specifies |
| RV.RVModel.PerturbBackgroundOffsets | src/RVmodel.cpp:288-294 | background and the offsets end as the first systematics draws specify |
| RV.RVModel.PerturbFiberSlope | src/RVmodel.cpp:296-304 | the fiber offset and slope end as the last systematics draws specify |
| RV.RVModel.ChooseMove | src/RVmodel.cpp:222-345 | the coin flips of perturb select the move of the specification |
| RV.RVModel.Perturb | src/RVmodel.cpp:215-402 | parameters, stream position and logH end as `Proposals.Proposal` gives them; only the planet move touches staleness; hyperparameter and jitter moves leave mu unchanged; the GP hyperparameter and jitter moves rebuild C, the other moves leave it unchanged; consistency and tracking are kept (for the planet move when it only added components), so the buffer then equals the from-scratch model |
| RV.RVModel.PerturbBy | src/RVmodel.cpp:222-398 | each branch ends with the parameters, stream, logH, staleness, mu and C that the whole of perturb promises for that move |
| RV.RVModel.GpLogLikelihood | src/RVmodel.cpp:419-446 | the GP branch computes the GP log likelihood of the residuals y - mu under C |
| RV.RVModel.Residual | src/RVmodel.cpp:423-425 | the residual vector is y - mu, entry by entry |
| RV.LogDeterminantOf | src/RVmodel.cpp:432-434 | the loop sums 2 log L(i,i) over the pivots into the log determinant |
| RV.ExponentOf | src/RVmodel.cpp:439-441 | the loop sums residual(i) solution(i) into the exponent |
| RV.RVModel.GaussianLogLikelihood | src/RVmodel.cpp:461-474 | the non-GP loop accumulates the per-point Gaussian terms |
| RV.RVModel.LogLikelihood | src/RVmodel.cpp:405-488 | log_likelihood changes nothing and returns the branch's value after the sentinel, so never NaN or -infinity |
| RV.RVModel.Print | src/RVmodel.cpp:490-523 | print writes jitters (or extra_sigma), slope, fiber offset, offsets, eta1..eta4, the planet block, staleness and background, each only under its switch |
| RV.RVModel.PrintOwn | src/RVmodel.cpp:496-517 | the writes before the planet block give the values of the model's own columns, each only under its switch |
| RV.RVModel.DescribeOwnColumns | src/RVmodel.cpp:529-549 | the loops and conditionals produce the header names of the model's own columns |
| RV.RVModel.Description | src/RVmodel.cpp:525-563 | description returns the exact header string of the column layout |
| Output.NatToString | src/RVmodel.cpp:532 | std::to_string of a count is a non-empty string of decimal digits |
| Output.ParseNatToString | src/RVmodel.cpp:532 | the decimal rendering of a count reads back as the same count |
| Output.NatToStringInjective | src/RVmodel.cpp:532 | different counts give different numerals, so jitter1, jitter2, ... are distinct |
| Output.DescribeNumbered | src/RVmodel.cpp:531-532 | the numbered-name loop produces prefix1 ... prefixN, separated by three spaces |
| Output.PrintFollowsColumns | src/RVmodel.cpp:496-517 | the values print writes before the planet block are, one for one, the values of the columns of the layout |
| Output.OwnDescriptionFollowsColumns | src/RVmodel.cpp:529-549 | the header of the model's own columns lists the labels of the same column layout |
| Output.PlanetDescriptionFollowsLabels | src/RVmodel.cpp:551-560 | the planet part of the header lists ndim, maxNp, [muP wP muK], Np and [P K phi ecc w], then staleness |
| Output.DescriptionFollowsColumns | src/RVmodel.cpp:525-563 | the header is the column labels, the planet labels, staleness and vsys, separated by three spaces |
| Output.DescriptionSplits | src/RVmodel.cpp:525-563 | splitting the header on whitespace gives back exactly the list of column names |
| Output.LabelsDistinct | src/RVmodel.cpp:529-549 | distinct columns have distinct header names |
| Output.PrintMatchesDescription | src/RVmodel.cpp:490-563 | print and description follow one column order: names and values line up column for column, with staleness and background / vsys last |
| Text.Word | pykima/showresults.py:73 | a word is the longest space-free prefix of the text |
| Text.WordsAreTokens | pykima/showresults.py:73 | every piece of str.split() is non-empty and free of whitespace |
| ShowResults.PyList.Index | pykima/showresults.py:26 | list.index finds the first occurrence, and reports absence (the ValueError) exactly when the value is missing |
| ShowResults.PyList.Pop | pykima/showresults.py:26 | list.pop(i) returns the element at i and removes it, keeping the rest in order |
| ShowResults.FindPop | pykima/showresults.py:21-31 | findpop returns True iff the value was in the list, and leaves the list with every occurrence removed and the rest in order |
| ShowResults.FilterCounts | pykima/showresults.py:24-28 | after findpop the value occurs zero times and every other value as often as before |
| ShowResults.FilterMembers | pykima/showresults.py:24-28 | an element survives findpop iff it was there and is not the value |
| ShowResults.FilterAbsent | pykima/showresults.py:30-31 | findpop of an absent value leaves the list unchanged |
| ShowResults.CommonKept | pykima/showresults.py:84-94 | the three common findpops remove exactly --save-plots, pickle and diagnostic |
| ShowResults.SwitchesKept | pykima/showresults.py:84-105 | the eight findpops of the switches remove exactly the switches |
| ShowResults.PlotsIn | pykima/showresults.py:106 | the plot numbers are exactly the number options present in the tokens |
| ShowResults.ParseArgs | pykima/showresults.py:66-116 | _parse_args, consuming the token list with findpop, returns the classification of the token specification |
| ShowResults.PopAll | pykima/showresults.py:107-108 | the loop of findpops over the plot numbers removes each of them in turn |
| ShowResults.ParseExits | pykima/showresults.py:75-81 | help is chosen iff -h or --help is among the tokens; version iff --version is and help is not |
| ShowResults.AllShortcut | pykima/showresults.py:96-99 | 'all' left after removing --save-plots, pickle and diagnostic sets rv, planets, orbital, gp and extra and no plot numbers |
| ShowResults.Leftover | pykima/showresults.py:84-108 | the tokens left after all removals are the original tokens that are not recognised, in their order |
| ShowResults.AbsentNumbers | pykima/showresults.py:106-108 | removing the numbers found is removing every number option, since the others do not occur |
| ShowResults.UnrecognisedToken | pykima/showresults.py:110-113 | the error exit happens iff some token is unrecognised, and it names the first such token |
| ShowResults.PlotNumbers | pykima/showresults.py:106-108 | a parsed plot_number holds a number iff it is between '1' and '7' and among the tokens |
| ShowResults.ShowResultsPlots | pykima/showresults.py:129-143 | the appends build the plot list of the flag mapping |
| ShowResults.FlagPlotsMembers | pykima/showresults.py:130-141 | a plot is among those of the flags iff its flag is set: rv 6, planets 1, orbital 2 and 3, gp 4 and 5, extra 7 |
| ShowResults.PlotsShown | pykima/showresults.py:129-143 | a plot is shown iff its flag is set (rv 6, planets 1, orbital 2 and 3, gp 4 and 5, extra 7) or it was asked for by number; the explicit numbers come last, in order |
| ShowResults.AllPlots | pykima/showresults.py:129-143 | with 'all' the plots are 6, 1, 2, 3, 4, 5, 7 in that order |

## Left out

- Floating point: arithmetic is exact over `real`. `exp`, `log`, `sin`, `cos`, `acos` and
  `fmod` are uninterpreted functions; only enough trigonometry is assumed to prove the Kepler
  lemmas. Rounding, the `long double` buffer, overflow and the accuracy of Kepler convergence
  are not modelled. Non-finite values are tracked only in the likelihood.
- Division in the Kepler solver is the library value `quot`. `ExactDivision` makes it the
  real quotient for a non-zero divisor; the result of a zero divisor is left open. Each lemma
  names as preconditions the library facts it needs (`ExactDivision`, `AtZero`, `Sound`).
- The Cholesky factorisation and solve of Eigen (src/RVmodel.cpp:428-436) are an abstract
  `LinAlg` value giving the pivots `L(i,i)` and the solution entries.
- RV.RVModel.CalculateMu: that the incremental path agrees with a rebuild rests on
  `DNest.GrowthOnly`: the components after the planet step are the old ones plus the added
  ones. This is what RJObject's `consolidate_diff` is relied on for. It is a hypothesis of
  the contracts, not proved, because the planet set is abstract. A step for which it does
  not hold gets no such promise; how RJObject reports removed components is not part of
  this model.
- The planet set (RJObject), the prior distributions and DNest4's RNG are abstract. Their
  internals, the conditional prior, and the planet block of `print` and `description` are not
  part of this model. As a consequence, the alignment of the planet block's values with its
  header names is not proved.
- Text formatting of `print`: the fixed 8-decimal notation and the tab and space separators
  are left out. `print` is modelled as the sequence of values it writes.
- The `Data` singleton is a value passed to the model; reading the data files is left out.
- `save_setup` (file writing and `ctime`) and the `TIMING` blocks are left out, being I/O and
  clock.
- The unused fields `quad`, `eta5`, `log_eta3`, `log_eta5`, `a`, `b`, `c` and `P` are left out.
- The constructor: values that the class leaves uninitialised (the scalars and `staleness`)
  are parameters of the constructor.
- `usage`, `sys.exit`, the version-file read, `postprocess`, `KimaResults`, the pickle prompt
  and `show()` are left out as I/O. `Help`, `Version` and `Unrecognized` results stand for the
  exits.
- When `options == ''` and `sys.argv[0]` lacks `kima-showresults`, `_parse_args` keeps the
  empty string as `args`. The model treats it as the empty token list, which behaves the same
  under every membership test and `findpop`.
- The order of `plot_number`: Python builds it from a set, whose iteration order is
  unspecified. The model uses the order of `number_options`, and every property about plot
  numbers is stated as membership.
- Observations.WhiteVariance: promises only that the variance is non-negative, not that it is
  positive when `sig[i]` is non-zero. Positivity enters the likelihood lemmas as a
  precondition.
- Kepler.RefineBounds: states the loop bounds and the stopping rule of `Refine` from any
  starting count, not that the estimate solves Kepler's equation, because the trigonometric
  functions are uninterpreted.
- Kepler.EccAnomalyOf: the iteration count and the last step only, for the same reason.
