/**
 * The call interface of the weights finders (`VariationalWeightsFinder.find_weights`,
 * `MSEWeightsFinder.find_weights`). Their gradient-based optimisation is not part of
 * this model: a finder is an arbitrary total function from a request to a result, and
 * every property proved about the callers holds for every such function.
 */
module WeightsFinder {
  import opened Wrappers

  /** The `normalize_g` argument: `False`, `True` or the mode string `'unit_g'`. */
  datatype Normalization = NoNormalization | Normalize | UnitG

  /**
   * Arguments of one `find_weights` call. `onlyLoss` is None when the caller leaves
   * `only_loss` at the library's default.
   */
  datatype FindRequest = FindRequest(
    yPred: seq<real>,
    fromCovariates: bool,
    normalizeG: Normalization,
    onlyLoss: Option<bool>)

  /** The `(loss, weights)` pair a finder returns. */
  datatype FindResult = FindResult(loss: real, weights: Option<seq<real>>)

  type Finder = FindRequest -> FindResult
}
