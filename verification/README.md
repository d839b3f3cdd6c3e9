# D-CIPHER driver scripts: a Dafny model

D-CIPHER discovers closed-form partial differential equations from observed fields.
A symbolic regressor (gplearn's `SymbolicRegressor`) proposes candidate expressions.
A weights finder scores each one by the loss of the best linear differential operator
that pairs with it. This project models the two driver scripts that connect the two:

- `var_objective/run_var_square.py` runs one search with the variational weights finder.
- `var_objective/gplearn_tuning.py` tunes the regressor's hyper-parameters with the MSE
  weights finder.

Both scripts share three pieces:

- `grid_and_fields_to_covariates` flattens the finder's grid-and-fields array into a design
  matrix X, one column per variable and one row per sample.
- `_check_if_zero` recognises an all-zero prediction.
- A fitness adapter runs a chain of guards before it calls `find_weights`.

The tuning script adds three more steps:

- a rejection loop that draws the four genetic-operator probabilities until they sum to at most 1;
- four result lists that are filled in lockstep;
- the report of the run with the smallest loss.

Modules:

- `Wrappers` holds `Option` and `Result`.
- `Covariates` holds the covariate flattening, its inverse and the element mapping, shared by both scripts.
- `ZeroCheck` holds `_check_if_zero`, shared by both scripts.
- `WeightsFinder` holds the request and result of `find_weights`, which is an opaque function parameter.
- `VarSquare` models `run_var_square.py`.
- `GplearnTuning` models `gplearn_tuning.py`.

Representation choices:

- A numpy array is a flat row-major `seq` plus its shape.
- Floating-point values are `real`. Both sentinels are exact decimals.
- The random number generator is a finite `seq<real>` of draws, consumed four per round.
- The weights finder and the regressor run are function-valued parameters: `Finder` and `Search`.

The model follows the code in three places where a reader might expect otherwise:

- The code moves axis 1 of the array to the end, not axis 0, before it reshapes to `(-1, num_var)`.
- The length-2 shim and the all-zero sentinel are checked in the scripts' fitness adapters before
  `find_weights` is called. Whether `find_weights` repeats them is not visible here: its code is not part of this model.
- The sentinel is meant to be worse than every real loss. Nothing in the two scripts enforces this: a finder loss
  above the sentinel ranks worse than the all-zero candidate (`VarSentinelNotWorst`, `MseSentinelNotWorst`).

## Model

| member | source | states |
|---|---|---|
| Covariates.ToCovariates | var_objective/run_var_square.py:20-24 | Success exactly when the array has an axis 1 of non-zero length. Fewer than two axes gives the moveaxis error. A zero-length axis 1 gives the ambiguous-reshape error. On success there are V = shape[1] columns and one row per combination of the other axes. The copy at `var_objective/gplearn_tuning.py` lines 25-29 is identical. |
| Covariates.FromCovariates | var_objective/run_var_square.py:22-24 | Rebuilding the array from a well-shaped design matrix gives an array of the original size. |
| Covariates.RowMajor | var_objective/run_var_square.py:24 | The C-order position of an in-bounds multi-index lies inside the array. |
| Covariates.CovariatesAt | var_objective/run_var_square.py:22-24 | Element (i0, v, i2, …, ik) of the input is entry v of the row whose index is the C-order position of (i0, i2, …, ik) among the axes other than 1. |
| Covariates.CovariatesRoundTrip | var_objective/run_var_square.py:22-24 | The flattening loses nothing: rebuilding from the design matrix and the shape gives back the input. |
| Covariates.CovariatesOfRebuilt | var_objective/run_var_square.py:22-24 | Every design matrix of the right shape is the flattening of the array rebuilt from it. With the round trip, the flattening is a bijection. |
| Covariates.RowMajorInjective | var_objective/run_var_square.py:24 | Distinct in-bounds multi-indices have distinct C-order positions. |
| Covariates.CovariateCellsDistinct | var_objective/run_var_square.py:22-24 | Two input elements that land on the same (row, column) cell of X are the same element. |
| ZeroCheck.CountZeros | var_objective/run_var_square.py:28 | `np.sum(vector == 0.0)` is the multiplicity of 0.0 in the vector, so it is at most its length. |
| ZeroCheck.AllZeroIff | var_objective/run_var_square.py:27-31 | `AllZero` models `_check_if_zero` (the count of zeros equals the length), and this lemma specifies it: it holds iff every entry is 0.0. It is therefore true on the empty vector. The copy at `var_objective/gplearn_tuning.py` lines 32-36 is identical. |
| VarSquare.VarFitness | var_objective/run_var_square.py:130-141 | A length-2 prediction gives 0.0, and this guard is checked first, so it wins even over an all-zero pair. Any other all-zero prediction, including the empty one, gives `INF` = 99999999.9. Otherwise the loss of `find_weights(y_pred, from_covariates=True, normalize_g=True)` is returned. |
| VarSquare.VarFitnessIgnoresTargetAndWeights | var_objective/run_var_square.py:130-141 | The fitness does not depend on `y` or `w`. |
| VarSquare.VarGuardsSkipFinder | var_objective/run_var_square.py:132-137 | On the shim and sentinel paths, any two finders give the same fitness: 0.0 or `INF`. |
| VarSquare.VarSentinelNotWorst | var_objective/run_var_square.py:136-141 | The finder's loss is returned unclamped. When it exceeds `INF` for a candidate with a non-zero entry, that candidate's fitness is strictly above the all-zero candidate's, so it ranks worse. |
| VarSquare.VarSentinelBeaten | var_objective/run_var_square.py:136-141 | A concrete finder for which the candidate [1.0] gets a fitness strictly above `INF`, the fitness of [0.0]. |
| VarSquare.FakeTarget | var_objective/run_var_square.py:144 | `fake_y` has one entry per row of X, and all of them are zero. |
| VarSquare.PrepareSearch | var_objective/run_var_square.py:143-144 | X is the covariate matrix of the finder's array, and the step fails exactly when the flattening fails. `fake_y` has one zero per row of X. |
| VarSquare.ParseBasis | var_objective/run_var_square.py:44 | Exactly the three choices `fourier`, `2spline2D` and `fake` are accepted, each mapped to its own basis family. |
| VarSquare.SelectBasis | var_objective/run_var_square.py:111-119 | The chosen family is built over `[width] * 2`, with second constructor argument 2 for the spline. `index_limits` is `[max_ind_basis] * 2` in every branch. |
| VarSquare.AcceptedBasisIndexLimits | var_objective/run_var_square.py:111-119 | Every accepted basis string yields `index_limits == [max_ind_basis, max_ind_basis]`. |
| GplearnTuning.MseFitness | var_objective/gplearn_tuning.py:81-92 | The same guard chain as the variational adapter, with `INF_FLOAT` = 9999999999999.9. Otherwise the loss of `find_weights(y_pred, from_covariates=True, normalize_g='unit_g', only_loss=True)` is returned. |
| GplearnTuning.MseFitnessUsesOnlyLoss | var_objective/gplearn_tuning.py:90-92 | Only the finder's loss reaches the regressor. Finders that agree on losses give equal fitness, whatever weights they return and whatever `y` and `w` are. |
| GplearnTuning.MseGuardsSkipFinder | var_objective/gplearn_tuning.py:84-88 | On the shim and sentinel paths the finder is not consulted. |
| GplearnTuning.MseSentinelNotWorst | var_objective/gplearn_tuning.py:87-92 | The same for `INF_FLOAT`: a finder loss above it makes a non-zero candidate rank worse than the all-zero one. |
| GplearnTuning.MseSentinelBeaten | var_objective/gplearn_tuning.py:87-92 | A concrete finder for which the candidate [1.0] gets a fitness strictly above `INF_FLOAT`, the fitness of [0.0]. |
| GplearnTuning.FirstAccepted | var_objective/gplearn_tuning.py:127-133 | Returns the first complete round of four draws from `from` onwards whose sum is at most 1. Every earlier round sums to more than 1. None means every complete round was rejected. |
| GplearnTuning.DrawProbabilities | var_objective/gplearn_tuning.py:127-133 | The `while sum > 1` loop succeeds iff some round is accepted. It then consumed exactly that many rounds and keeps the last one: every earlier round sums to more than 1, and the kept round sums to at most 1. |
| GplearnTuning.AcceptedProbabilities | var_objective/gplearn_tuning.py:126-133 | The rounds accepted for successive parameter sets: at most one per parameter set, each with sum at most 1. |
| GplearnTuning.KeyNameInjective | var_objective/gplearn_tuning.py:99-108 | The eight dictionary keys are spelt differently, so each `ParamKey` stands for its own dictionary entry. The four `p_*` spellings are those written at lines 135-138. |
| GplearnTuning.StoreProbabilities | var_objective/gplearn_tuning.py:135-138 | Only the four `p_*` keys are written, with the accepted round's values. Every other key keeps its value, and no other key appears. |
| GplearnTuning.RecordedExtend | var_objective/gplearn_tuning.py:146-149 | Appending one run's loss, parameters, programme and length to the four lists keeps entry k of each list describing run k. |
| GplearnTuning.Tune | var_objective/gplearn_tuning.py:120-150 | The four lists grow in lockstep, one entry per parameter set processed. Entry k holds parameter set k with only its probabilities added, and their sum is at most 1. The stored probabilities are exactly the rounds accepted from the draw stream, in order, and the loss, programme and length come from the run on those parameters. Every parameter set is processed unless the draws run out. |
| GplearnTuning.ArgMin | var_objective/gplearn_tuning.py:152 | `np.argmin` returns the first index of a smallest loss. An empty list has no minimum. |
| GplearnTuning.BestRun | var_objective/gplearn_tuning.py:152-160 | The reported loss, parameters, function and length all come from the same index, the first run with the smallest loss. No report is made for an empty list. |

## Left out

- Floating point: values are `real`, so NaN, infinities and rounding are not modelled. In particular `np.sum(vector == 0.0)` on a NaN entry is not modelled.
- `find_weights` itself (variational and MSE) is an opaque `Finder` parameter. Its optimisation, normalisation and weights are not part of this model.
- The constructors of `VariationalWeightsFinder` and `MSEWeightsFinder` are not modelled. Their `grid_and_fields` array is a parameter.
- `generate_fields`, `estimate_fields`, `EquiPartGrid`, `get_pdes`, `get_conditions_set`, the configuration getters and the basis classes are not modelled. A basis is a tag with its widths and, for the spline, its second constructor argument 2; whether that argument is the degree or the order of the spline is decided by the basis class, which is not part of this model.
- `SymbolicRegressor`, `make_fitness`, `est.fit`, `est.predict`, `gp_to_pysym_with_coef` and `sympy.simplify` are not modelled. One regressor run, with the final `find_weights` call on its prediction, is the opaque `Search` parameter.
- `LinearOperator.from_vector` and `get_adjoint` are not modelled, and neither is the final printed equation of the variational script.
- argparse beyond the `basis` choices, `time`, `print`, `datetime`, `pickle` and the text file are left out because they are I/O.
- The diagnostic `find_weights` calls (`loss2`, `loss3`) are left out because their results are only printed.
- The unused local `INF_FLOAT` in `run_var_square.py` is not modelled. Neither is the `weights` list of the tuning script, which is shadowed by the finder's result and never filled.
- The commented-out blocks are not modelled: the animation and the `_mse_fitness` sketch in `run_var_square.py`, and the probability grid entries in `gplearn_tuning.py`.
- `ParameterGrid` and `np.random.choice(..., replace=False)` are not modelled. The sampled parameter sets are the input `paramsList`.
- Integer-valued hyper-parameters (population size, generations, tournament size) are held as reals in the parameter map.
- The parameter dictionaries have a closed key set (`ParamKey`), whose Python spellings are given by `KeyName`.
- DrawProbabilities: `np.random.rand()` is an unbounded stream, and the model uses a finite sequence of draws. Termination of the rejection loop, which holds only with probability 1, is therefore not modelled. Running out of draws is reported with `ok = false`.
- DrawProbabilities: the draws are not constrained to [0, 1).
- Tune: stops with `complete = false` when the finite draw stream runs out. The script would keep drawing.
- Tune: the regressor run (`est.fit`, `est.predict`, the `find_weights` call at line 144 and `gp_to_pysym_with_coef`) is assumed to draw nothing from numpy's global generator between two rejection loops. Their code is not part of this model. If any of them did draw, parameter set k would get a later round than the k-th of `AcceptedProbabilities`. The lockstep, sum-at-most-1 and written-keys properties do not depend on this assumption.
- Tune: the script mutates each dictionary of `params_list` in place and appends that same object to `used_params`. The model returns the updated map as a new value, so the aliasing between the two lists is not modelled.
- BestRun: `np.argmin` on an empty list raises an error. The model returns `None`.
