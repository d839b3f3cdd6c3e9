/**
 * The variational driver script: its fitness adapter around
 * `VariationalWeightsFinder.find_weights`, the inputs it hands to the symbolic
 * regressor, and the choice of test-function basis.
 */
module VarSquare {
  import opened Wrappers
  import opened Covariates
  import opened ZeroCheck
  import opened WeightsFinder

  /** Sentinel loss for an all-zero candidate. */
  const Inf: real := 99999999.9

  /** `find_weights(y_pred, from_covariates=True, normalize_g=True)`, `only_loss` left at its default. */
  function VarRequest(yPred: seq<real>): FindRequest
  {
    FindRequest(yPred, true, Normalize, None)
  }

  /**
   * `_var_fitness(y, y_pred, w)`: the length-2 self-test shim first, then the all-zero
   * sentinel, and only then one call to the weights finder, whose loss is returned.
   */
  function VarFitness(find: Finder, y: seq<real>, yPred: seq<real>, w: seq<real>): (loss: real)
    ensures |yPred| == 2 ==> loss == 0.0
    ensures |yPred| != 2 && (forall i :: 0 <= i < |yPred| ==> yPred[i] == 0.0) ==> loss == Inf
    ensures |yPred| != 2 && (exists i :: 0 <= i < |yPred| && yPred[i] != 0.0) ==>
              loss == find(VarRequest(yPred)).loss
  {
    AllZeroIff(yPred);
    if |yPred| == 2 then 0.0
    else if AllZero(yPred) then Inf
    else
      var result := find(VarRequest(yPred));
      result.loss
  }

  /** The observed values `y` and the sample weights `w` never influence the fitness. */
  lemma VarFitnessIgnoresTargetAndWeights(find: Finder, y: seq<real>, y': seq<real>, yPred: seq<real>, w: seq<real>, w': seq<real>)
    ensures VarFitness(find, y, yPred, w) == VarFitness(find, y', yPred, w')
  {
  }

  /**
   * On the shim and sentinel paths the finder is never consulted: any two finders give
   * the same fitness.
   */
  lemma VarGuardsSkipFinder(find: Finder, find': Finder, y: seq<real>, yPred: seq<real>, w: seq<real>)
    requires |yPred| == 2 || forall i :: 0 <= i < |yPred| ==> yPred[i] == 0.0
    ensures VarFitness(find, y, yPred, w) == VarFitness(find', y, yPred, w)
    ensures VarFitness(find, y, yPred, w) == if |yPred| == 2 then 0.0 else Inf
  {
  }
  /**
   * The sentinel does not bound the losses: a candidate with a non-zero entry whose
   * finder loss exceeds the sentinel ranks worse than the all-zero candidate of the
   * same length, since lower fitness is better and the loss is returned unclamped.
   */
  lemma VarSentinelNotWorst(find: Finder, y: seq<real>, yPred: seq<real>, w: seq<real>)
    requires |yPred| != 2 && (exists i :: 0 <= i < |yPred| && yPred[i] != 0.0)
    requires find(VarRequest(yPred)).loss > Inf
    ensures VarFitness(find, y, yPred, w) > VarFitness(find, y, seq(|yPred|, _ => 0.0), w)
  {
  }

  /** A concrete finder for which the single non-zero candidate [1.0] ranks below [0.0]. */
  lemma VarSentinelBeaten()
    ensures var find: Finder := _ => FindResult(2.0 * Inf, None);
            VarFitness(find, [], [1.0], []) > VarFitness(find, [], [0.0], [])
  {
    var find: Finder := _ => FindResult(2.0 * Inf, None);
    var candidate := [1.0];
    assert candidate[0] != 0.0;
    VarSentinelNotWorst(find, [], candidate, []);
    assert seq(1, _ => 0.0) == [0.0];
  }


  /** `np.zeros(X.shape[0])`: the placeholder regression target, one zero per row of X. */
  function FakeTarget<T>(x: seq<T>): (y: seq<real>)
    ensures |y| == |x| && AllZero(y)
  {
    var y := seq(|x|, _ => 0.0);
    AllZeroIff(y);
    y
  }

  /** The design matrix X and the placeholder target handed to the symbolic regressor. */
  datatype SearchInputs = SearchInputs(x: seq<seq<real>>, fakeY: seq<real>)

  /**
   * `X = grid_and_fields_to_covariates(var_wf.grid_and_fields)` followed by
   * `fake_y = np.zeros(X.shape[0])`, for the finder's array given flat with its shape.
   */
  function PrepareSearch(gridAndFields: seq<real>, shape: seq<nat>): (r: Result<SearchInputs, CovariateError>)
    requires |gridAndFields| == Prod(shape)
    ensures r.Success? <==> ToCovariates(gridAndFields, shape).Success?
    ensures r.Success? ==> r.value.x == ToCovariates(gridAndFields, shape).value
    ensures r.Success? ==> |r.value.fakeY| == |r.value.x| == Prod(WithoutAxis1(shape))
    ensures r.Success? ==> forall i :: 0 <= i < |r.value.fakeY| ==> r.value.fakeY[i] == 0.0
  {
    match ToCovariates(gridAndFields, shape)
    case Failure(e) => Failure(e)
    case Success(x) =>
      var fakeY := FakeTarget(x);
      AllZeroIff(fakeY);
      Success(SearchInputs(x, fakeY))
  }

  /** The `basis` command-line choices. */
  datatype BasisChoice = FourierChoice | Spline2DChoice | FakeChoice

  /** The test-function families the script can construct, with the grid widths they receive. */
  datatype Basis =
    | FourierSine2D(widths: seq<real>)
    | BSplineFreq2D(widths: seq<real>, arg: nat)
    | FakeBasis(widths: seq<real>)

  /** argparse's `choices=['fourier','2spline2D','fake']`: any other string is rejected. */
  function ParseBasis(arg: string): (r: Option<BasisChoice>)
    ensures r.Some? <==> arg in {"fourier", "2spline2D", "fake"}
    ensures r == Some(FourierChoice) <==> arg == "fourier"
    ensures r == Some(Spline2DChoice) <==> arg == "2spline2D"
    ensures r == Some(FakeChoice) <==> arg == "fake"
  {
    if arg == "fourier" then Some(FourierChoice)
    else if arg == "2spline2D" then Some(Spline2DChoice)
    else if arg == "fake" then Some(FakeChoice)
    else None
  }

  /**
   * The basis dispatch: the chosen family over `widths = [width] * 2`, and
   * `index_limits = [max_ind_basis] * 2` whichever family was chosen.
   */
  function SelectBasis(choice: BasisChoice, width: real, maxIndBasis: int): (r: (Basis, seq<int>))
    ensures |r.0.widths| == 2 && r.0.widths[0] == width && r.0.widths[1] == width
    ensures |r.1| == 2 && r.1[0] == maxIndBasis && r.1[1] == maxIndBasis
    ensures choice == FourierChoice <==> r.0.FourierSine2D?
    ensures choice == Spline2DChoice <==> r.0.BSplineFreq2D? && r.0.arg == 2
    ensures choice == FakeChoice <==> r.0.FakeBasis?
  {
    var widths := [width, width];
    match choice
    case FourierChoice => (FourierSine2D(widths), [maxIndBasis, maxIndBasis])
    case Spline2DChoice => (BSplineFreq2D(widths, 2), [maxIndBasis, maxIndBasis])
    case FakeChoice => (FakeBasis(widths), [maxIndBasis, maxIndBasis])
  }

  /** Every basis string argparse accepts yields two index limits, both `max_ind_basis`. */
  lemma AcceptedBasisIndexLimits(arg: string, width: real, maxIndBasis: int)
    requires arg in {"fourier", "2spline2D", "fake"}
    ensures ParseBasis(arg).Some?
    ensures SelectBasis(ParseBasis(arg).value, width, maxIndBasis).1 == [maxIndBasis, maxIndBasis]
  {
  }
}
