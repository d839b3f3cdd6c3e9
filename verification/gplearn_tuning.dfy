/**
 * The hyper-parameter tuning script: its fitness adapter around
 * `MSEWeightsFinder.find_weights`, the rejection loop that draws the four genetic
 * operator probabilities, the four result lists filled in lockstep, and the selection
 * of the reported best run.
 */
module GplearnTuning {
  import opened Wrappers
  import opened ZeroCheck
  import opened WeightsFinder

  /** Sentinel loss for an all-zero candidate. */
  const InfFloat: real := 9999999999999.9

  /** `find_weights(y_pred, from_covariates=True, normalize_g='unit_g', only_loss=True)`. */
  function MseRequest(yPred: seq<real>): FindRequest
  {
    FindRequest(yPred, true, UnitG, Some(true))
  }

  /**
   * `_mse_fitness(y, y_pred, w)`: the length-2 self-test shim first, then the all-zero
   * sentinel, and only then one call to the weights finder, whose loss is returned.
   */
  function MseFitness(find: Finder, y: seq<real>, yPred: seq<real>, w: seq<real>): (loss: real)
    ensures |yPred| == 2 ==> loss == 0.0
    ensures |yPred| != 2 && (forall i :: 0 <= i < |yPred| ==> yPred[i] == 0.0) ==> loss == InfFloat
    ensures |yPred| != 2 && (exists i :: 0 <= i < |yPred| && yPred[i] != 0.0) ==>
              loss == find(MseRequest(yPred)).loss
  {
    AllZeroIff(yPred);
    if |yPred| == 2 then 0.0
    else if AllZero(yPred) then InfFloat
    else
      var result := find(MseRequest(yPred));
      result.loss
  }

  /**
   * Only the finder's loss reaches the search: two finders that agree on every loss give
   * the same fitness whatever weights they return, and `y` and `w` are never read.
   */
  lemma MseFitnessUsesOnlyLoss(find: Finder, find': Finder, y: seq<real>, y': seq<real>, yPred: seq<real>, w: seq<real>, w': seq<real>)
    requires forall r :: find(r).loss == find'(r).loss
    ensures MseFitness(find, y, yPred, w) == MseFitness(find', y', yPred, w')
  {
  }

  /** On the shim and sentinel paths the finder is never consulted. */
  lemma MseGuardsSkipFinder(find: Finder, find': Finder, y: seq<real>, yPred: seq<real>, w: seq<real>)
    requires |yPred| == 2 || forall i :: 0 <= i < |yPred| ==> yPred[i] == 0.0
    ensures MseFitness(find, y, yPred, w) == MseFitness(find', y, yPred, w)
    ensures MseFitness(find, y, yPred, w) == if |yPred| == 2 then 0.0 else InfFloat
  {
  }
  /**
   * The sentinel does not bound the losses: a candidate with a non-zero entry whose
   * finder loss exceeds the sentinel ranks worse than the all-zero candidate of the
   * same length, since lower fitness is better and the loss is returned unclamped.
   */
  lemma MseSentinelNotWorst(find: Finder, y: seq<real>, yPred: seq<real>, w: seq<real>)
    requires |yPred| != 2 && (exists i :: 0 <= i < |yPred| && yPred[i] != 0.0)
    requires find(MseRequest(yPred)).loss > InfFloat
    ensures MseFitness(find, y, yPred, w) > MseFitness(find, y, seq(|yPred|, _ => 0.0), w)
  {
  }

  /** A concrete finder for which the single non-zero candidate [1.0] ranks below [0.0]. */
  lemma MseSentinelBeaten()
    ensures var find: Finder := _ => FindResult(2.0 * InfFloat, None);
            MseFitness(find, [], [1.0], []) > MseFitness(find, [], [0.0], [])
  {
    var find: Finder := _ => FindResult(2.0 * InfFloat, None);
    var candidate := [1.0];
    assert candidate[0] != 0.0;
    MseSentinelNotWorst(find, [], candidate, []);
    assert seq(1, _ => 0.0) == [0.0];
  }


  // ---------------------------------------------------------------------------
  // Genetic operator probabilities

  datatype Probabilities = Probabilities(crossover: real, subtreeMutation: real, hoistMutation: real, pointMutation: real)

  function Total(p: Probabilities): real
  {
    p.crossover + p.subtreeMutation + p.hoistMutation + p.pointMutation
  }

  /**
   * Round k of the random stream: the four consecutive `np.random.rand()` draws assigned
   * to `p_cross`, `p_subtree`, `p_hoist` and `p_point`, in that order.
   */
  function Round(draws: seq<real>, k: nat): Probabilities
    requires 4 * k + 4 <= |draws|
  {
    Probabilities(draws[4 * k], draws[4 * k + 1], draws[4 * k + 2], draws[4 * k + 3])
  }

  /**
   * The first round at or after `from` whose sum is at most 1: the round the rejection
   * loop accepts. None when every complete round of the stream from there is rejected.
   */
  function FirstAccepted(draws: seq<real>, from: nat): (r: Option<nat>)
    ensures r.Some? ==> from <= r.value && 4 * r.value + 4 <= |draws| && Total(Round(draws, r.value)) <= 1.0
    ensures r.Some? ==> forall j :: from <= j < r.value ==> Total(Round(draws, j)) > 1.0
    ensures r.None? ==> forall j :: from <= j && 4 * j + 4 <= |draws| ==> Total(Round(draws, j)) > 1.0
    decreases |draws| - 4 * from
  {
    if 4 * from + 4 > |draws| then None
    else if Total(Round(draws, from)) <= 1.0 then Some(from)
    else FirstAccepted(draws, from + 1)
  }

  /**
   * The `while sum > 1` rejection loop over a finite stream of draws. When it accepts
   * (`ok`), `rounds` rounds were consumed, every earlier round summed to more than 1 and
   * `p` is the last round, whose sum is at most 1. When the stream runs out first,
   * every complete round of it was rejected.
   */
  method DrawProbabilities(draws: seq<real>) returns (p: Probabilities, rounds: nat, ok: bool)
    ensures 4 * rounds <= |draws|
    ensures ok <==> FirstAccepted(draws, 0).Some?
    ensures ok ==> rounds == FirstAccepted(draws, 0).value + 1 && p == Round(draws, rounds - 1)
    ensures ok ==> Total(p) <= 1.0 && forall j :: 0 <= j < rounds - 1 ==> Total(Round(draws, j)) > 1.0
  {
    var sum := 2.0;
    rounds := 0;
    p := Probabilities(0.0, 0.0, 0.0, 0.0);
    while sum > 1.0 && 4 * rounds + 4 <= |draws|
      invariant 4 * rounds <= |draws|
      invariant rounds == 0 ==> sum == 2.0
      invariant rounds > 0 ==> p == Round(draws, rounds - 1) && sum == Total(p)
      invariant forall j :: 0 <= j < rounds - 1 ==> Total(Round(draws, j)) > 1.0
      decreases |draws| - 4 * rounds
    {
      var pCross := draws[4 * rounds];
      var pSubtree := draws[4 * rounds + 1];
      var pHoist := draws[4 * rounds + 2];
      var pPoint := draws[4 * rounds + 3];
      sum := pCross + pSubtree + pHoist + pPoint;
      p := Probabilities(pCross, pSubtree, pHoist, pPoint);
      rounds := rounds + 1;
    }
    ok := sum <= 1.0;
    assert ok ==> FirstAccepted(draws, 0) == Some(rounds - 1);
  }

  /**
   * The probabilities the outer loop stores for its first n parameter sets, each the
   * accepted round of what the previous sets left of the stream. Shorter than n when
   * the stream runs out.
   */
  function AcceptedProbabilities(draws: seq<real>, n: nat): (ps: seq<Probabilities>)
    ensures |ps| <= n
    ensures forall k :: 0 <= k < |ps| ==> Total(ps[k]) <= 1.0
  {
    if n == 0 then []
    else
      match FirstAccepted(draws, 0)
      case None => []
      case Some(k) => [Round(draws, k)] + AcceptedProbabilities(draws[4 * k + 4..], n - 1)
  }

  /**
   * The keys a parameter dictionary of this script can hold: the four searched over by
   * the parameter grid and the four operator probabilities written by the loop.
   */
  datatype ParamKey =
    | PopulationSize | Generations | TournamentSize | ParsimonyCoefficient
    | PCrossover | PSubtreeMutation | PHoistMutation | PPointMutation

  /** The dictionary key as the script spells it. */
  function KeyName(key: ParamKey): string
  {
    match key
    case PopulationSize => "population_size"
    case Generations => "generations"
    case TournamentSize => "tournament_size"
    case ParsimonyCoefficient => "parsimony_coefficient"
    case PCrossover => "p_crossover"
    case PSubtreeMutation => "p_subtree_mutation"
    case PHoistMutation => "p_hoist_mutation"
    case PPointMutation => "p_point_mutation"
  }

  /** Distinct keys are distinct dictionary entries: no two keys share a spelling. */
  lemma KeyNameInjective(a: ParamKey, b: ParamKey)
    requires KeyName(a) == KeyName(b)
    ensures a == b
  {
  }

  /** A parameter dictionary; integer-valued entries are held as reals. */
  type Params = map<ParamKey, real>

  const ProbabilityKeys: set<ParamKey> := {PCrossover, PSubtreeMutation, PHoistMutation, PPointMutation}

  /** The four probabilities as stored in a parameter dictionary. */
  function StoredProbabilities(param: Params): Probabilities
    requires ProbabilityKeys <= param.Keys
  {
    Probabilities(param[PCrossover], param[PSubtreeMutation], param[PHoistMutation], param[PPointMutation])
  }

  /** `updated` is `param` with the four probability keys written and nothing else changed. */
  predicate OnlyProbabilitiesWritten(param: Params, updated: Params)
  {
    && updated.Keys == param.Keys + ProbabilityKeys
    && forall key :: key in param && key !in ProbabilityKeys ==> updated[key] == param[key]
  }

  /** The four `param[...] = ...` assignments. */
  method StoreProbabilities(param: Params, p: Probabilities) returns (updated: Params)
    ensures OnlyProbabilitiesWritten(param, updated)
    ensures ProbabilityKeys <= updated.Keys && StoredProbabilities(updated) == p
  {
    updated := param;
    updated := updated[PCrossover := p.crossover];
    updated := updated[PSubtreeMutation := p.subtreeMutation];
    updated := updated[PHoistMutation := p.hoistMutation];
    updated := updated[PPointMutation := p.pointMutation];
  }

  // ---------------------------------------------------------------------------
  // The tuning loop

  /**
   * What one run of the symbolic regressor yields for a parameter set: the loss of
   * `find_weights` on its prediction, the printed expression and the program length.
   */
  datatype SearchOutcome = SearchOutcome(loss: real, programme: string, length: nat)

  type Search = Params -> SearchOutcome

  /** Entry k of the four result lists belongs to one run with an admissible parameter set. */
  predicate RecordedRun(search: Search, param: Params, used: Params,
                        loss: real, programme: string, length: nat)
  {
    && OnlyProbabilitiesWritten(param, used)
    && Total(StoredProbabilities(used)) <= 1.0
    && loss == search(used).loss
    && programme == search(used).programme
    && length == search(used).length
  }

  /**
   * The first |results| entries of the four lists, in lockstep, record the runs on the
   * first |results| parameter sets, whose stored probabilities are `stored`.
   */
  predicate Recorded(search: Search, paramsList: seq<Params>, results: seq<real>, usedParams: seq<Params>,
                     programmes: seq<string>, programmeLengths: seq<nat>, stored: seq<Probabilities>)
  {
    && |results| == |usedParams| == |programmes| == |programmeLengths| == |stored| <= |paramsList|
    && forall k :: 0 <= k < |results| ==>
         && RecordedRun(search, paramsList[k], usedParams[k], results[k], programmes[k], programmeLengths[k])
         && StoredProbabilities(usedParams[k]) == stored[k]
  }

  /** Appending one run to each of the four lists keeps them recording the runs in order. */
  lemma RecordedExtend(search: Search, paramsList: seq<Params>, results: seq<real>, usedParams: seq<Params>,
                       programmes: seq<string>, programmeLengths: seq<nat>, stored: seq<Probabilities>,
                       param: Params, outcome: SearchOutcome)
    requires Recorded(search, paramsList, results, usedParams, programmes, programmeLengths, stored)
    requires |results| < |paramsList| && outcome == search(param)
    requires OnlyProbabilitiesWritten(paramsList[|results|], param) && ProbabilityKeys <= param.Keys
    requires Total(StoredProbabilities(param)) <= 1.0
    ensures Recorded(search, paramsList, results + [outcome.loss], usedParams + [param],
                     programmes + [outcome.programme], programmeLengths + [outcome.length],
                     stored + [StoredProbabilities(param)])
  {
  }

  /**
   * The `for param in params_list` loop. The four lists grow in lockstep, one entry per
   * parameter set processed; entry k holds the k-th parameter set with its accepted
   * probabilities and what the search made of it. `complete` is false only when the
   * stream of draws ran out before every parameter set was processed.
   */
  method Tune(paramsList: seq<Params>, draws: seq<real>, search: Search)
    returns (results: seq<real>, usedParams: seq<Params>, programmes: seq<string>,
             programmeLengths: seq<nat>, complete: bool)
    ensures |results| == |usedParams| == |programmes| == |programmeLengths| <= |paramsList|
    ensures complete <==> |results| == |paramsList|
    ensures forall k :: 0 <= k < |results| ==>
              RecordedRun(search, paramsList[k], usedParams[k], results[k], programmes[k], programmeLengths[k])
    ensures var accepted := AcceptedProbabilities(draws, |paramsList|);
            |results| == |accepted| &&
            forall k :: 0 <= k < |results| ==>
              ProbabilityKeys <= usedParams[k].Keys && StoredProbabilities(usedParams[k]) == accepted[k]
  {
    results, usedParams, programmes, programmeLengths := [], [], [], [];
    complete := true;
    var stream := draws;
    var i := 0;
    ghost var stored: seq<Probabilities> := [];
    ghost var left: nat := |paramsList|;
    ghost var target := AcceptedProbabilities(draws, |paramsList|);
    while i < |paramsList|
      invariant i <= |paramsList|
      invariant |results| == |usedParams| == |programmes| == |programmeLengths| == |stored| == i
      invariant Recorded(search, paramsList, results, usedParams, programmes, programmeLengths, stored)
      invariant left == |paramsList| - i
      invariant target == stored + AcceptedProbabilities(stream, left)
    {
      var p, rounds, ok := DrawProbabilities(stream);
      if !ok {
        AcceptedExhausted(target, stored, stream, left);
        complete := false;
        break;
      }
      var rest := stream[4 * rounds..];
      ghost var storedNext := stored + [p];
      ghost var leftNext: nat := left - 1;
      AcceptedHead(stream, rest, left, p, rounds);
      AcceptedStep(target, stored, storedNext, AcceptedProbabilities(stream, left), p,
                   AcceptedProbabilities(rest, leftNext));
      stream := rest;
      var param := StoreProbabilities(paramsList[i], p);
      var outcome := search(param);
      RecordedExtend(search, paramsList, results, usedParams, programmes, programmeLengths, stored, param, outcome);
      stored := storedNext;
      results := results + [outcome.loss];
      usedParams := usedParams + [param];
      programmes := programmes + [outcome.programme];
      programmeLengths := programmeLengths + [outcome.length];
      i := i + 1;
      left := leftNext;
    }
    if complete {
      assert AcceptedProbabilities(stream, left) == [];
    }
    RecordedAll(search, paramsList, results, usedParams, programmes, programmeLengths, stored, target);
  }

  /** Once every accepted round is stored, the runs' stored probabilities are exactly those rounds. */
  lemma RecordedAll(search: Search, paramsList: seq<Params>, results: seq<real>, usedParams: seq<Params>,
                    programmes: seq<string>, programmeLengths: seq<nat>, stored: seq<Probabilities>,
                    target: seq<Probabilities>)
    requires Recorded(search, paramsList, results, usedParams, programmes, programmeLengths, stored)
    requires target == stored
    ensures |results| == |target|
    ensures forall k :: 0 <= k < |results| ==>
              RecordedRun(search, paramsList[k], usedParams[k], results[k], programmes[k], programmeLengths[k])
    ensures forall k :: 0 <= k < |results| ==>
              ProbabilityKeys <= usedParams[k].Keys && StoredProbabilities(usedParams[k]) == target[k]
  {
  }

  /** When the rejection loop accepts, the accepted round heads what the rest of the stream yields. */
  lemma AcceptedHead(stream: seq<real>, rest: seq<real>, left: nat, p: Probabilities, rounds: nat)
    requires left > 0 && rounds > 0 && 4 * rounds <= |stream| && rest == stream[4 * rounds..]
    requires FirstAccepted(stream, 0) == Some(rounds - 1) && p == Round(stream, rounds - 1)
    ensures AcceptedProbabilities(stream, left) == [p] + AcceptedProbabilities(rest, left - 1)
  {
  }

  /** Storing the accepted round keeps the stored prefix of the target sequence. */
  lemma AcceptedStep<T>(target: seq<T>, stored: seq<T>, storedNext: seq<T>, ahead: seq<T>, p: T, tail: seq<T>)
    requires target == stored + ahead && ahead == [p] + tail && storedNext == stored + [p]
    ensures target == storedNext + tail
  {
  }

  /** When the rejection loop runs out of draws, nothing more is stored. */
  lemma AcceptedExhausted(target: seq<Probabilities>, stored: seq<Probabilities>, stream: seq<real>, left: nat)
    requires left > 0 && target == stored + AcceptedProbabilities(stream, left)
    requires FirstAccepted(stream, 0).None?
    ensures target == stored
  {
  }

  // ---------------------------------------------------------------------------
  // Reporting

  /** `np.argmin`: the first index of the smallest value; an empty sequence has none. */
  function ArgMin(s: seq<real>): (r: Option<nat>)
    ensures r.None? <==> |s| == 0
    ensures r.Some? ==> r.value < |s|
    ensures r.Some? ==> forall j :: 0 <= j < |s| ==> s[r.value] <= s[j]
    ensures r.Some? ==> forall j :: 0 <= j < r.value ==> s[r.value] < s[j]
  {
    if |s| == 0 then None
    else
      match ArgMin(s[..|s| - 1])
      case None => Some(0)
      case Some(k) => if s[|s| - 1] < s[k] then Some(|s| - 1) else Some(k)
  }

  /** The summary written at the end: loss, parameters, function and length of the best run. */
  datatype Report = Report(minIndex: nat, loss: real, params: Params, programme: string, length: nat)

  /**
   * `min_i = np.argmin(results)` and the four entries reported from it. All four come
   * from the same run, the first one with the smallest loss.
   */
  function BestRun(results: seq<real>, usedParams: seq<Params>, programmes: seq<string>,
                   programmeLengths: seq<nat>): (r: Option<Report>)
    requires |results| == |usedParams| == |programmes| == |programmeLengths|
    ensures r.None? <==> |results| == 0
    ensures r.Some? ==> var k := r.value.minIndex;
              && k < |results|
              && r.value.loss == results[k] && r.value.params == usedParams[k]
              && r.value.programme == programmes[k] && r.value.length == programmeLengths[k]
              && (forall j :: 0 <= j < |results| ==> r.value.loss <= results[j])
              && (forall j :: 0 <= j < k ==> r.value.loss < results[j])
  {
    match ArgMin(results)
    case None => None
    case Some(k) => Some(Report(k, results[k], usedParams[k], programmes[k], programmeLengths[k]))
  }
}
