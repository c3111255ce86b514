/** The model layer: the `Model` wrapper around one regressor, the registry of
    model families, and the two hyperparameter sweeps (tree depth, and number of
    estimators by out-of-bag error).

    Fitting, prediction, the error metrics and the out-of-bag score belong to
    scikit-learn; a `Learner` supplies them as functions, so a sweep is
    determined by the learner, the data and the hyperparameters it tries. */
module Models {
  import opened Tables
  import opened Dicts

  type Matrix = seq<seq<real>>
  type Vector = seq<real>

  /** The training and testing arrays handed to every model. */
  datatype Data = Data(xTrain: Matrix, yTrain: Vector, xTest: Matrix, yTest: Vector)

  /** The model classes. */
  datatype Family = SimpleRegression | SimpleDecisionTree | ExtraTrees | RandomForest | GradientBoost

  /** The `models` registry, keys spelled as in the source. */
  const Registry: Dict<string, Family> := [
    ("linear_regression", SimpleRegression),
    ("decison_tree", SimpleDecisionTree),
    ("extra_trees", ExtraTrees),
    ("random_forest", RandomForest),
    ("gradient_boos", GradientBoost)
  ]

  /** The hyperparameters a constructor call passes, positionally or by keyword;
      `None` for one the call leaves out. */
  datatype Args = Args(depth: Option<int>, oobScore: Option<bool>, nEstimators: Option<int>, bootstrap: Option<bool>)

  /** A call with the data and the name only. */
  const Defaults := Args(None, None, None, None)

  function OrElse<T>(o: Option<T>, otherwise: T): T
  {
    if o.Some? then o.value else otherwise
  }

  /** The scikit-learn regressor a model class configures. */
  datatype Estimator =
    | LinearRegression
    | DecisionTreeRegressor
    | ExtraTreesRegressor(maxDepth: int, oobScore: bool, nEstimators: int, bootstrap: bool)
    | RandomForestRegressor(maxDepth: int, oobScore: bool, nEstimators: int, bootstrap: bool)
    | GradientBoostingRegressor(maxDepth: int, nEstimators: int)

  /** The class that configures each kind of regressor. */
  function FamilyOf(e: Estimator): Family
  {
    match e
    case LinearRegression => SimpleRegression
    case DecisionTreeRegressor => SimpleDecisionTree
    case ExtraTreesRegressor(_, _, _, _) => ExtraTrees
    case RandomForestRegressor(_, _, _, _) => RandomForest
    case GradientBoostingRegressor(_, _) => GradientBoost
  }

  /** Which hyperparameters each class's constructor declares. */
  predicate Accepts(family: Family, args: Args)
  {
    match family
    case SimpleRegression => args == Defaults
    case SimpleDecisionTree => args == Defaults
    case GradientBoost => args.oobScore.None? && args.bootstrap.None?
    case ExtraTrees => true
    case RandomForest => true
  }

  /** The first hyperparameter of `args` that is passed, in declaration order. */
  function FirstPassed(args: Args): string
  {
    if args.depth.Some? then "depth"
    else if args.oobScore.Some? then "oob_score"
    else if args.nEstimators.Some? then "n_estimators"
    else "bootstrap"
  }

  /** Calling a model class with `args`: the regressor it configures, with the
      class's defaults for what `args` leaves out, or the TypeError of an argument
      the class does not declare (the message names that argument). */
  function Configure(family: Family, args: Args): (r: Result<Estimator>)
    ensures r.Ok? <==> Accepts(family, args)
    ensures r.Ok? ==> FamilyOf(r.value) == family
    ensures r.Err? ==> r.error.TypeError?
  {
    match family
    case SimpleRegression =>
      if args == Defaults then Ok(LinearRegression) else Err(TypeError(FirstPassed(args)))
    case SimpleDecisionTree =>
      if args == Defaults then Ok(DecisionTreeRegressor) else Err(TypeError(FirstPassed(args)))
    case ExtraTrees =>
      Ok(ExtraTreesRegressor(OrElse(args.depth, 18), OrElse(args.oobScore, false),
                             OrElse(args.nEstimators, 68), OrElse(args.bootstrap, false)))
    case RandomForest =>
      Ok(RandomForestRegressor(OrElse(args.depth, 18), OrElse(args.oobScore, false),
                               OrElse(args.nEstimators, 80), OrElse(args.bootstrap, false)))
    case GradientBoost =>
      if args.oobScore.Some? then Err(TypeError("oob_score"))
      else if args.bootstrap.Some? then Err(TypeError("bootstrap"))
      else Ok(GradientBoostingRegressor(OrElse(args.depth, 18), OrElse(args.nEstimators, 50)))
  }

  /** The three tree ensembles, the families that take a depth and an estimator count. */
  predicate IsEnsemble(family: Family)
  {
    family == ExtraTrees || family == RandomForest || family == GradientBoost
  }

  predicate HasDepth(e: Estimator)
  {
    e.ExtraTreesRegressor? || e.RandomForestRegressor? || e.GradientBoostingRegressor?
  }

  /** Every class can be built from the data and the name alone; only the ensembles
      take a depth and an estimator count, and they use the values passed. */
  lemma ConfigureTuned(family: Family, depth: int, n: int)
    ensures Configure(family, Defaults).Ok?
    ensures Configure(family, Args(Some(depth), None, Some(n), None)).Ok? <==> IsEnsemble(family)
    ensures IsEnsemble(family) ==>
      var e := Configure(family, Args(Some(depth), None, Some(n), None)).value;
      HasDepth(e) && e.maxDepth == depth && e.nEstimators == n
  {
  }

  /** A regressor, with the data it was last fitted on. */
  datatype Regressor = Regressor(estimator: Estimator, fittedOn: Option<(Matrix, Vector)>)

  datatype Metric = MeanSquaredError | MeanAbsoluteError | R2Score | RootMeanSquaredError | MeanAbsolutePercentageError

  /** What this layer sees of scikit-learn: predictions of a regressor, the
      out-of-bag score of a fitted ensemble, and each metric of a prediction
      (`score(m, yTrue, yPred)`). */
  datatype Learner = Learner(
    predict: (Regressor, Matrix) -> Vector,
    oobScore: Regressor -> real,
    score: (Metric, Vector, Vector) -> real)

  /** The metrics `compute_metrics` records, in order, and their keys. */
  const MetricOrder: seq<Metric> := [MeanSquaredError, MeanAbsoluteError, R2Score, RootMeanSquaredError, MeanAbsolutePercentageError]
  const MetricKeys: seq<string> := ["mse", "mae", "r2", "rmse", "mape"]

  /** Each metric key with the metric's value for a prediction. */
  function MetricPairs(learner: Learner, yTrue: Vector, yPred: Vector): (r: Dict<string, real>)
    ensures Keys(r) == MetricKeys
  {
    seq(|MetricKeys|, t requires 0 <= t < |MetricKeys| => (MetricKeys[t], learner.score(MetricOrder[t], yTrue, yPred)))
  }

  /** The five pairs, one by one. */
  lemma MetricPairsListed(learner: Learner, yTrue: Vector, yPred: Vector)
    ensures MetricPairs(learner, yTrue, yPred) == [
      ("mse", learner.score(MeanSquaredError, yTrue, yPred)),
      ("mae", learner.score(MeanAbsoluteError, yTrue, yPred)),
      ("r2", learner.score(R2Score, yTrue, yPred)),
      ("rmse", learner.score(RootMeanSquaredError, yTrue, yPred)),
      ("mape", learner.score(MeanAbsolutePercentageError, yTrue, yPred))]
  {
  }

  /** The `Model` base class: the data, a name, the regressor, its last
      prediction and the metrics of that prediction. */
  class Model {
    const xTrain: Matrix
    const yTrain: Vector
    const xTest: Matrix
    const yTest: Vector
    const name: string
    var model: Regressor
    var yPred: Option<Vector>
    var metrics: Dict<string, real>

    /** A model class's constructor, once `Configure` has chosen the regressor. */
    constructor (xTrain: Matrix, yTrain: Vector, xTest: Matrix, yTest: Vector, name: string, estimator: Estimator)
      ensures this.xTrain == xTrain && this.yTrain == yTrain && this.xTest == xTest && this.yTest == yTest
      ensures this.name == name
      ensures model == Regressor(estimator, None) && yPred == None && metrics == []
    {
      this.xTrain := xTrain;
      this.yTrain := yTrain;
      this.xTest := xTest;
      this.yTest := yTest;
      this.name := name;
      model := Regressor(estimator, None);
      yPred := None;
      metrics := [];
    }

    /** The model was built over `data`. */
    predicate Holds(data: Data)
    {
      xTrain == data.xTrain && yTrain == data.yTrain && xTest == data.xTest && yTest == data.yTest
    }

    /** The regressor once fitted on this model's training data. */
    function Trained(e: Estimator): Regressor
    {
      Regressor(e, Some((xTrain, yTrain)))
    }

    /** `fit` */
    method Fit()
      modifies this
      ensures model == Trained(old(model).estimator)
      ensures yPred == old(yPred) && metrics == old(metrics)
    {
      model := Trained(model.estimator);
    }

    /** `fit_and_predict`: fit, then predict the test features. */
    method FitAndPredict(learner: Learner)
      modifies this
      ensures model == Trained(old(model).estimator)
      ensures yPred == Some(learner.predict(model, xTest))
      ensures metrics == old(metrics)
    {
      model := Trained(model.estimator);
      yPred := Some(learner.predict(model, xTest));
    }

    /** `compute_metrics`: records mse, mae, r2, rmse and mape of the prediction, in that order. */
    method ComputeMetrics(learner: Learner)
      requires yPred.Some?
      modifies this
      ensures metrics == PutAll(old(metrics), MetricPairs(learner, yTest, old(yPred.value)))
      ensures model == old(model) && yPred == old(yPred)
    {
      var y := yPred.value;
      MetricPairsListed(learner, yTest, y);
      PutAllFive(metrics, MetricPairs(learner, yTest, y));
      metrics := Put(metrics, "mse", learner.score(MeanSquaredError, yTest, y));
      metrics := Put(metrics, "mae", learner.score(MeanAbsoluteError, yTest, y));
      metrics := Put(metrics, "r2", learner.score(R2Score, yTest, y));
      metrics := Put(metrics, "rmse", learner.score(RootMeanSquaredError, yTest, y));
      metrics := Put(metrics, "mape", learner.score(MeanAbsolutePercentageError, yTest, y));
    }

    /** `run_model`: fit and predict, then compute the metrics. */
    method RunModel(learner: Learner)
      modifies this
      ensures model == Trained(old(model).estimator)
      ensures yPred == Some(learner.predict(model, xTest))
      ensures metrics == PutAll(old(metrics), MetricPairs(learner, yTest, yPred.value))
    {
      FitAndPredict(learner);
      ComputeMetrics(learner);
    }
  }

  /** The metrics a freshly built model holds after `run_model`. */
  function RunMetrics(learner: Learner, data: Data, e: Estimator): Dict<string, real>
  {
    PutAll([], MetricPairs(learner, data.yTest, learner.predict(Regressor(e, Some((data.xTrain, data.yTrain))), data.xTest)))
  }

  lemma MetricKeysDistinct()
    ensures NoDuplicates(MetricKeys)
  {
    var ks := MetricKeys;
    forall i, j | 0 <= i < j < |ks| ensures ks[i] != ks[j] {
      assert |ks[2]| == 2 && |ks[0]| == |ks[1]| == 3 && |ks[3]| == |ks[4]| == 4;
      assert ks[0][1] != ks[1][1] && ks[3][1] != ks[4][1];
    }
  }

  /** A fresh model's metrics are exactly mse, mae, r2, rmse and mape, in that order,
      each holding its metric of the test targets and the prediction. */
  lemma {:induction false} RunMetricsKeys(learner: Learner, data: Data, e: Estimator)
    ensures var m := RunMetrics(learner, data, e);
      Keys(m) == MetricKeys &&
      forall t :: 0 <= t < |MetricKeys| ==>
        m[t].1 == learner.score(MetricOrder[t], data.yTest, learner.predict(Regressor(e, Some((data.xTrain, data.yTrain))), data.xTest))
  {
    var y := learner.predict(Regressor(e, Some((data.xTrain, data.yTrain))), data.xTest);
    var pairs := MetricPairs(learner, data.yTest, y);
    MetricKeysDistinct();
    assert [] + pairs == pairs;
    PutAllFresh([], pairs);
  }

  /** `i` holds the least value of `s`, and no earlier position does. */
  predicate IsFirstMin(s: seq<real>, i: nat)
  {
    i < |s| && (forall j :: 0 <= j < |s| ==> s[i] <= s[j]) && (forall j :: 0 <= j < i ==> s[j] > s[i])
  }

  /** `i` holds the greatest value of `s`, and no earlier position does. */
  predicate IsFirstMax(s: seq<real>, i: nat)
  {
    i < |s| && (forall j :: 0 <= j < |s| ==> s[i] >= s[j]) && (forall j :: 0 <= j < i ==> s[j] < s[i])
  }

  /** `np.argmin`: the first position of the least value; ValueError on an empty list. */
  function ArgMin(s: seq<real>): (r: Result<nat>)
    ensures r.Ok? <==> |s| > 0
    ensures r.Err? ==> r.error.ValueError?
    ensures r.Ok? ==> IsFirstMin(s, r.value)
    decreases |s|
  {
    if |s| == 0 then Result<nat>.Err(ValueError("attempt to get argmin of an empty sequence"))
    else if |s| == 1 then Ok(0)
    else
      var i := ArgMin(s[..|s| - 1]).value;
      if s[|s| - 1] < s[i] then Ok(|s| - 1) else Ok(i)
  }

  /** `np.argmax`: the first position of the greatest value; ValueError on an empty list. */
  function ArgMax(s: seq<real>): (r: Result<nat>)
    ensures r.Ok? <==> |s| > 0
    ensures r.Err? ==> r.error.ValueError?
    ensures r.Ok? ==> IsFirstMax(s, r.value)
    decreases |s|
  {
    if |s| == 0 then Result<nat>.Err(ValueError("attempt to get argmax of an empty sequence"))
    else if |s| == 1 then Ok(0)
    else
      var i := ArgMax(s[..|s| - 1]).value;
      if s[|s| - 1] > s[i] then Ok(|s| - 1) else Ok(i)
  }

  /** `range(lo, hi)` */
  function Range(lo: int, hi: int): (r: seq<int>)
    ensures |r| == if hi > lo then hi - lo else 0
    ensures forall i :: 0 <= i < |r| ==> r[i] == lo + i
    decreases hi - lo
  {
    if hi <= lo then [] else Range(lo, hi - 1) + [hi - 1]
  }

  /** Calling a model class: the constructor of `Model` with the regressor `Configure` chooses. */
  method Build(family: Family, data: Data, name: string, args: Args) returns (r: Result<Model>)
    ensures r.Err? <==> Configure(family, args).Err?
    ensures r.Err? ==> r.error == Configure(family, args).error
    ensures r.Ok? ==> fresh(r.value) && r.value.Holds(data) && r.value.name == name
    ensures r.Ok? ==> r.value.model == Regressor(Configure(family, args).value, None)
    ensures r.Ok? ==> r.value.yPred == None && r.value.metrics == []
  {
    match Configure(family, args)
    case Err(e) =>
      r := Err(e);
    case Ok(estimator) =>
      var m := new Model(data.xTrain, data.yTrain, data.xTest, data.yTest, name, estimator);
      r := Ok(m);
  }

  // ---------------------------------------------------------------------------
  // The depth sweep

  /** The depth passed positionally after the name. */
  function DepthArgs(depth: int): Args
  {
    Args(Some(depth), None, None, None)
  }

  /** One pass of the depth loop: the metrics of the model of depth `depth`, or the
      error of building it. */
  function DepthRun(learner: Learner, data: Data, family: Family, depth: int): Result<(int, Dict<string, real>)>
  {
    match Configure(family, DepthArgs(depth))
    case Err(e) => Err(e)
    case Ok(estimator) => Ok((depth, RunMetrics(learner, data, estimator)))
  }

  /** The passes of the depth loop, depths 1 to `maxDepth - 1`. */
  function DepthRuns(learner: Learner, data: Data, family: Family, maxDepth: int): (r: seq<Result<(int, Dict<string, real>)>>)
    ensures |r| == |Range(1, maxDepth)|
  {
    var depths := Range(1, maxDepth);
    seq(|depths|, i requires 0 <= i < |depths| => DepthRun(learner, data, family, depths[i]))
  }

  /** The `metrics` dict of the depth loop: each depth with its model's metrics. */
  function DepthSweep(learner: Learner, data: Data, family: Family, maxDepth: int): Result<Dict<int, Dict<string, real>>>
  {
    FoldResults(DepthRuns(learner, data, family, maxDepth), [], PutPair)
  }

  /** The depth loop of one family. */
  method SweepDepths(learner: Learner, data: Data, name: string, family: Family, maxDepth: int)
    returns (r: Result<Dict<int, Dict<string, real>>>)
    ensures r == DepthSweep(learner, data, family, maxDepth)
  {
    ghost var runs := DepthRuns(learner, data, family, maxDepth);
    var metrics: Dict<int, Dict<string, real>> := [];
    var depth := 1;
    while depth < maxDepth
      invariant 1 <= depth && depth - 1 <= |runs|
      invariant FoldResults(runs[..depth - 1], [], PutPair) == Ok(metrics)
    {
      assert runs[depth - 1] == DepthRun(learner, data, family, depth);
      var built := Build(family, data, name, DepthArgs(depth));
      if built.Err? {
        FoldResultsFails(runs, [], PutPair, depth - 1, built.error);
        return Err(built.error);
      }
      var treeModel := built.value;
      treeModel.RunModel(learner);
      FoldResultsStep(runs, [], PutPair, depth - 1, metrics, (depth, treeModel.metrics));
      metrics := Put(metrics, depth, treeModel.metrics);
      depth := depth + 1;
    }
    assert runs[..depth - 1] == runs;
    return Ok(metrics);
  }

  /** The regrouping loop: `metrics_scores[metric][depth] = value`, opening the
      dict of a metric the first time it is seen. */
  method PivotScores<J(==,!new), K(==,!new), V>(rows: Dict<J, Dict<K, V>>) returns (out: Dict<K, Dict<J, V>>)
    ensures out == Pivot(rows)
  {
    out := [];
    var i := 0;
    while i < |rows|
      invariant 0 <= i <= |rows|
      invariant out == Pivot(rows[..i])
    {
      var j, sub := rows[i].0, rows[i].1;
      ghost var before := out;
      var m := 0;
      while m < |sub|
        invariant 0 <= m <= |sub|
        invariant out == PivotRow(before, j, sub[..m])
      {
        var k, v := sub[m].0, sub[m].1;
        ghost var start := out;
        if Get(out, k).None? {
          out := Put(out, k, []);
          GetPutSame(start, k, []);
        }
        var column := Get(out, k).value;
        PutTwice(start, k, [], Put(column, j, v));
        out := Put(out, k, Put(column, j, v));
        PivotRowSnoc(before, j, sub, m);
        m := m + 1;
      }
      assert sub[..|sub|] == sub;
      assert rows[..i + 1][..i] == rows[..i];
      i := i + 1;
    }
    assert rows[..|rows|] == rows;
  }

  /** `((optimal_depth, optimal_value), (depths, values))` of one metric. */
  datatype DepthChoice = DepthChoice(optimalDepth: int, optimalValue: real, depths: seq<int>, values: seq<real>)

  /** The selection rule: the greatest r2, the least of every other metric. */
  function Best(metric: string, values: seq<real>): (r: Result<nat>)
  {
    if metric == "r2" then ArgMax(values) else ArgMin(values)
  }

  /** The choice for one metric from its scores by depth. */
  function Choose(metric: string, scores: Dict<int, real>): (r: Result<DepthChoice>)
    ensures r.Ok? <==> |scores| > 0
    ensures r.Ok? ==> r.value.depths == Keys(scores) && r.value.values == Values(scores)
  {
    var depths, values := Keys(scores), Values(scores);
    match Best(metric, values)
    case Err(e) => Err(e)
    case Ok(i) => Ok(DepthChoice(depths[i], values[i], depths, values))
  }

  /** The chosen depth and value sit at one position of the series, the first
      position of its greatest value for r2 and of its least value otherwise. */
  lemma ChooseOptimal(metric: string, scores: Dict<int, real>) returns (i: nat)
    requires |scores| > 0
    ensures var c := Choose(metric, scores).value;
      i < |c.values| && c.optimalDepth == c.depths[i] && c.optimalValue == c.values[i] &&
      (metric == "r2" ==> IsFirstMax(c.values, i)) && (metric != "r2" ==> IsFirstMin(c.values, i))
  {
    i := Best(metric, Values(scores)).value;
  }

  function ChooseEntry(entry: (string, Dict<int, real>)): Result<(string, DepthChoice)>
  {
    match Choose(entry.0, entry.1)
    case Err(e) => Err(e)
    case Ok(c) => Ok((entry.0, c))
  }

  lemma ChooseEntryBest(metric: string, scores: Dict<int, real>)
    ensures var best := Best(metric, Values(scores));
      ChooseEntry((metric, scores)) ==
        if best.Err? then Err(best.error)
        else Ok((metric, DepthChoice(Keys(scores)[best.value], Values(scores)[best.value], Keys(scores), Values(scores))))
  {
  }

  function ChoiceOutcomes(scores: Dict<string, Dict<int, real>>): (r: seq<Result<(string, DepthChoice)>>)
    ensures |r| == |scores|
    ensures forall t :: 0 <= t < |scores| ==> r[t] == ChooseEntry(scores[t])
  {
    seq(|scores|, t requires 0 <= t < |scores| => ChooseEntry(scores[t]))
  }

  /** The choices of all metrics, in the order of `scores`. */
  function Choices(scores: Dict<string, Dict<int, real>>): Result<Dict<string, DepthChoice>>
  {
    FoldResults(ChoiceOutcomes(scores), [], PutPair)
  }

  /** The selection loop over `metrics_scores`. */
  method SelectOptimal(scores: Dict<string, Dict<int, real>>) returns (r: Result<Dict<string, DepthChoice>>)
    ensures r == Choices(scores)
  {
    ghost var outcomes := ChoiceOutcomes(scores);
    var chosen: Dict<string, DepthChoice> := [];
    var t := 0;
    while t < |scores|
      invariant 0 <= t <= |scores|
      invariant FoldResults(outcomes[..t], [], PutPair) == Ok(chosen)
    {
      var metric, column := scores[t].0, scores[t].1;
      var depths, values := Keys(column), Values(column);
      var best := if metric == "r2" then ArgMax(values) else ArgMin(values);
      assert outcomes[t] == ChooseEntry(scores[t]);
      ChooseEntryBest(metric, column);
      if best.Err? {
        FoldResultsFails(outcomes, [], PutPair, t, best.error);
        return Err(best.error);
      }
      var i := best.value;
      var choice := DepthChoice(depths[i], values[i], depths, values);
      FoldResultsStep(outcomes, [], PutPair, t, chosen, (metric, choice));
      chosen := Put(chosen, metric, choice);
      t := t + 1;
    }
    assert outcomes[..t] == outcomes;
    return Ok(chosen);
  }

  /** What the depth sweep records for one family: its choices by metric, nothing
      when no depth is tried, or the error that stops the sweep. */
  function DepthEntry(learner: Learner, data: Data, entry: (string, Family), maxDepth: int)
    : Result<Option<(string, Dict<string, DepthChoice>)>>
  {
    match DepthSweep(learner, data, entry.1, maxDepth)
    case Err(e) => Err(e)
    case Ok(metrics) =>
      if metrics == [] then Ok(None)
      else
        match Choices(Pivot(metrics))
        case Err(e) => Err(e)
        case Ok(c) => Ok(Some((entry.0, c)))
  }

  function DepthEntries(learner: Learner, data: Data, models: Dict<string, Family>, maxDepth: int)
    : (r: seq<Result<Option<(string, Dict<string, DepthChoice>)>>>)
    ensures |r| == |models|
    ensures forall i :: 0 <= i < |models| ==> r[i] == DepthEntry(learner, data, models[i], maxDepth)
  {
    seq(|models|, i requires 0 <= i < |models| => DepthEntry(learner, data, models[i], maxDepth))
  }

  /** `optimal_depth_trees`: each family's choices, under its name. */
  function OptimalDepths(learner: Learner, data: Data, models: Dict<string, Family>, maxDepth: int)
    : Result<Dict<string, Dict<string, DepthChoice>>>
  {
    FoldResults(DepthEntries(learner, data, models, maxDepth), [], PutSome)
  }

  /** The default of `max_depth_tested`: depths 1 to 25 are tried. */
  const DefaultMaxDepth := 26

  /** `optimal_depth_trees`: sweep each family's depths, regroup the metrics by
      metric, and choose the best depth of each. */
  method OptimalDepthTrees(learner: Learner, data: Data, modelsToTest: Dict<string, Family>, maxDepthTested: int)
    returns (r: Result<Dict<string, Dict<string, DepthChoice>>>)
    ensures r == OptimalDepths(learner, data, modelsToTest, maxDepthTested)
  {
    ghost var outcomes := DepthEntries(learner, data, modelsToTest, maxDepthTested);
    var optimalDepths: Dict<string, Dict<string, DepthChoice>> := [];
    var i := 0;
    while i < |modelsToTest|
      invariant 0 <= i <= |modelsToTest|
      invariant FoldResults(outcomes[..i], [], PutSome) == Ok(optimalDepths)
    {
      var name, family := modelsToTest[i].0, modelsToTest[i].1;
      var metrics := SweepDepths(learner, data, name, family, maxDepthTested);
      if metrics.Err? {
        FoldResultsFails(outcomes, [], PutSome, i, metrics.error);
        return Err(metrics.error);
      }
      if metrics.value != [] {
        var scores := PivotScores(metrics.value);
        var chosen := SelectOptimal(scores);
        if chosen.Err? {
          FoldResultsFails(outcomes, [], PutSome, i, chosen.error);
          return Err(chosen.error);
        }
        FoldResultsStep(outcomes, [], PutSome, i, optimalDepths, Some((name, chosen.value)));
        optimalDepths := Put(optimalDepths, name, chosen.value);
      } else {
        FoldResultsStep(outcomes, [], PutSome, i, optimalDepths, None);
      }
      i := i + 1;
    }
    assert outcomes[..i] == outcomes;
    return Ok(optimalDepths);
  }

  // ---------------------------------------------------------------------------
  // What the depth sweep finds

  /** Metric `t` (in the order of `MetricKeys`) of `e` fitted on the training data
      and scored on the test data; 0 past the five metrics. */
  function Score(learner: Learner, data: Data, e: Estimator, t: nat): real
  {
    if t < |MetricOrder| then
      learner.score(MetricOrder[t], data.yTest, learner.predict(Regressor(e, Some((data.xTrain, data.yTrain))), data.xTest))
    else 0.0
  }

  /** Metric `t` of the model of depth `d` of a family; 0 where there is no such model. */
  function DepthScore(learner: Learner, data: Data, family: Family, d: int, t: nat): real
  {
    match Configure(family, DepthArgs(d))
    case Ok(e) => Score(learner, data, e, t)
    case Err(_) => 0.0
  }

  function DepthCell(learner: Learner, data: Data, family: Family): (int, nat) -> real
  {
    (d: int, t: nat) => DepthScore(learner, data, family, d, t)
  }

  lemma RangeDistinct(lo: int, hi: int)
    ensures NoDuplicates(Range(lo, hi))
  {
  }

  /** One depth of an ensemble records its model's five metrics under their keys. */
  lemma DepthRunRow(learner: Learner, data: Data, family: Family, d: int)
    requires IsEnsemble(family)
    ensures DepthRun(learner, data, family, d) == Ok((d, GridRow(MetricKeys, DepthCell(learner, data, family), d)))
  {
    var e := Configure(family, DepthArgs(d)).value;
    RunMetricsKeys(learner, data, e);
    var m := RunMetrics(learner, data, e);
    var row := GridRow(MetricKeys, DepthCell(learner, data, family), d);
    assert |m| == |Keys(m)| == |row|;
    forall t | 0 <= t < |MetricKeys| ensures m[t] == row[t] {
      assert Keys(m)[t] == m[t].0;
      assert DepthCell(learner, data, family)(d, t) == DepthScore(learner, data, family, d, t) == Score(learner, data, e, t);
    }
    assert m == row;
  }

  /** The depth loop of an ensemble: one entry per depth from 1 to `maxDepth - 1`,
      in order, each holding that model's metrics. */
  lemma DepthSweepGrid(learner: Learner, data: Data, family: Family, maxDepth: int)
    requires IsEnsemble(family)
    ensures DepthSweep(learner, data, family, maxDepth) == Ok(Grid(Range(1, maxDepth), MetricKeys, DepthCell(learner, data, family)))
  {
    var depths := Range(1, maxDepth);
    var grid := Grid(depths, MetricKeys, DepthCell(learner, data, family));
    var runs := DepthRuns(learner, data, family, maxDepth);
    forall i | 0 <= i < |grid| ensures runs[i] == Ok(grid[i]) {
      DepthRunRow(learner, data, family, depths[i]);
    }
    RangeDistinct(1, maxDepth);
    FoldPutFresh(runs, grid);
  }

  /** A model that takes no depth stops the depth loop at its first pass. */
  lemma DepthSweepRejects(learner: Learner, data: Data, family: Family, maxDepth: int)
    requires !IsEnsemble(family) && maxDepth > 1
    ensures DepthSweep(learner, data, family, maxDepth) == Err(TypeError("depth"))
  {
    var runs := DepthRuns(learner, data, family, maxDepth);
    assert runs[0] == Err(TypeError("depth"));
    assert runs[..0] == [];
    FoldResultsFails(runs, [], PutPair, 0, TypeError("depth"));
  }

  /** With no depth to try, no family is recorded. */
  lemma OptimalDepthsNone(learner: Learner, data: Data, models: Dict<string, Family>, maxDepth: int)
    requires maxDepth <= 1
    ensures OptimalDepths(learner, data, models, maxDepth) == Ok([])
  {
    var entries := DepthEntries(learner, data, models, maxDepth);
    var os := seq(|models|, i => None);
    forall i | 0 <= i < |models| ensures entries[i] == Ok(os[i]) {
      assert DepthRuns(learner, data, models[i].1, maxDepth) == [];
    }
    PresentNone(os);
    FoldSomeFresh(entries, os);
  }

  /** The choices an ensemble's depth sweep makes: for each metric, its scores by
      depth and the depth the rule selects. */
  function DepthChoices(learner: Learner, data: Data, family: Family, maxDepth: int): (r: Dict<string, DepthChoice>)
    requires maxDepth > 1
    ensures Keys(r) == MetricKeys
  {
    var cell := DepthCell(learner, data, family);
    seq(|MetricKeys|, t requires 0 <= t < |MetricKeys| =>
      (MetricKeys[t], Choose(MetricKeys[t], GridColumn(Range(1, maxDepth), cell, t)).value))
  }

  /** An ensemble swept over at least one depth is recorded under its name, with
      one choice per metric. */
  lemma DepthEntryChoices(learner: Learner, data: Data, name: string, family: Family, maxDepth: int)
    requires IsEnsemble(family) && maxDepth > 1
    ensures DepthEntry(learner, data, (name, family), maxDepth) == Ok(Some((name, DepthChoices(learner, data, family, maxDepth))))
  {
    var depths := Range(1, maxDepth);
    var cell := DepthCell(learner, data, family);
    DepthSweepGrid(learner, data, family, maxDepth);
    RangeDistinct(1, maxDepth);
    MetricKeysDistinct();
    PivotGrid(depths, MetricKeys, cell);
    var columns := Transposed(depths, MetricKeys, cell);
    var chosen := DepthChoices(learner, data, family, maxDepth);
    var outcomes := ChoiceOutcomes(columns);
    forall t | 0 <= t < |chosen| ensures outcomes[t] == Ok(chosen[t]) {
      assert columns[t] == (MetricKeys[t], GridColumn(depths, cell, t));
    }
    FoldPutFresh(outcomes, chosen);
  }

  /** For metric `t`, the sweep records the depths 1 to `maxDepth - 1`, the model
      scores at each, and as optimum the depth at the first position of the
      greatest r2 or of the least value of any other metric. */
  lemma DepthChoiceAt(learner: Learner, data: Data, family: Family, maxDepth: int, t: nat) returns (i: nat)
    requires maxDepth > 1 && t < |MetricKeys|
    ensures var c := DepthChoices(learner, data, family, maxDepth)[t].1;
      c.depths == Range(1, maxDepth) && |c.values| == |c.depths| &&
      (forall k :: 0 <= k < |c.values| ==> c.values[k] == DepthScore(learner, data, family, 1 + k, t)) &&
      i < |c.values| && c.optimalDepth == 1 + i && c.optimalValue == c.values[i] &&
      (MetricKeys[t] == "r2" ==> IsFirstMax(c.values, i)) &&
      (MetricKeys[t] != "r2" ==> IsFirstMin(c.values, i))
  {
    var depths := Range(1, maxDepth);
    var column := GridColumn(depths, DepthCell(learner, data, family), t);
    i := ChooseOptimal(MetricKeys[t], column);
  }

  /** Each family's name with its choices. */
  function DepthTable(learner: Learner, data: Data, models: Dict<string, Family>, maxDepth: int)
    : (r: Dict<string, Dict<string, DepthChoice>>)
    requires maxDepth > 1
    ensures Keys(r) == Keys(models)
    ensures forall i :: 0 <= i < |models| ==> r[i].1 == DepthChoices(learner, data, models[i].1, maxDepth)
  {
    seq(|models|, i requires 0 <= i < |models| => (models[i].0, DepthChoices(learner, data, models[i].1, maxDepth)))
  }

  /** Every family an ensemble, under distinct names, and at least one depth to try:
      each name is recorded, in order, with its family's choices. */
  lemma OptimalDepthsAll(learner: Learner, data: Data, models: Dict<string, Family>, maxDepth: int)
    requires DistinctKeys(models) && maxDepth > 1
    requires forall i :: 0 <= i < |models| ==> IsEnsemble(models[i].1)
    ensures OptimalDepths(learner, data, models, maxDepth) == Ok(DepthTable(learner, data, models, maxDepth))
  {
    var entries := DepthEntries(learner, data, models, maxDepth);
    var pairs := DepthTable(learner, data, models, maxDepth);
    var os := Somes(pairs);
    forall i | 0 <= i < |models| ensures entries[i] == Ok(os[i]) {
      DepthEntryChoices(learner, data, models[i].0, models[i].1, maxDepth);
      assert pairs[i] == (Keys(pairs)[i], pairs[i].1);
    }
    PresentSomes(pairs);
    FoldSomeFresh(entries, os);
  }

  // ---------------------------------------------------------------------------
  // The out-of-bag sweep

  /** Out-of-bag scoring on bootstrap samples with `n` estimators, passed by keyword. */
  function OobArgs(n: int): Args
  {
    Args(None, Some(true), Some(n), Some(true))
  }

  /** `1 - oob_score_` of the model with `n` estimators fitted on the training data,
      or the error of building it. */
  function OobError(learner: Learner, data: Data, family: Family, n: int): Result<real>
  {
    match Configure(family, OobArgs(n))
    case Err(e) => Err(e)
    case Ok(estimator) => Ok(1.0 - learner.oobScore(Regressor(estimator, Some((data.xTrain, data.yTrain)))))
  }

  /** The passes of the estimator loop, 18 to `maxEstimators - 1` estimators. */
  function OobRuns(learner: Learner, data: Data, family: Family, maxEstimators: int): (r: seq<Result<real>>)
    ensures |r| == |Range(18, maxEstimators)|
    ensures forall i :: 0 <= i < |r| ==> r[i] == OobError(learner, data, family, 18 + i)
  {
    seq(|Range(18, maxEstimators)|, i requires 0 <= i < |Range(18, maxEstimators)| => OobError(learner, data, family, 18 + i))
  }

  /** The `errors` list of one family. */
  function OobSweep(learner: Learner, data: Data, family: Family, maxEstimators: int): Result<seq<real>>
  {
    FoldResults(OobRuns(learner, data, family, maxEstimators), [], Append)
  }

  /** `((range(18, max_estimators), errors), (optimal_estimator + 18, optimal_value))` */
  datatype OobResult = OobResult(estimators: seq<int>, errors: seq<real>, optimalEstimator: int, optimalValue: real)

  /** What the out-of-bag sweep records for one family: nothing for the name
      "gradient_boost", otherwise its errors and the estimator count of the least
      error, or the error that stops the sweep. */
  function OobEntry(learner: Learner, data: Data, entry: (string, Family), maxEstimators: int)
    : Result<Option<(string, OobResult)>>
  {
    if entry.0 == "gradient_boost" then Ok(None)
    else
      match OobSweep(learner, data, entry.1, maxEstimators)
      case Err(e) => Err(e)
      case Ok(errors) =>
        match ArgMin(errors)
        case Err(e) => Err(e)
        case Ok(i) => Ok(Some((entry.0, OobResult(Range(18, maxEstimators), errors, i + 18, errors[i]))))
  }

  function OobEntries(learner: Learner, data: Data, models: Dict<string, Family>, maxEstimators: int)
    : (r: seq<Result<Option<(string, OobResult)>>>)
    ensures |r| == |models|
    ensures forall i :: 0 <= i < |models| ==> r[i] == OobEntry(learner, data, models[i], maxEstimators)
  {
    seq(|models|, i requires 0 <= i < |models| => OobEntry(learner, data, models[i], maxEstimators))
  }

  /** `oob_erros_trees`: each swept family's result, under its name. */
  function OobErrors(learner: Learner, data: Data, models: Dict<string, Family>, maxEstimators: int)
    : Result<Dict<string, OobResult>>
  {
    FoldResults(OobEntries(learner, data, models, maxEstimators), [], PutSome)
  }

  /** The default of `max_estimators`: estimator counts 18 to 100 are tried. */
  const DefaultMaxEstimators := 101

  /** The estimator loop of one family: fit each model and list its out-of-bag error. */
  method SweepEstimators(learner: Learner, data: Data, name: string, family: Family, maxEstimators: int)
    returns (r: Result<seq<real>>)
    ensures r == OobSweep(learner, data, family, maxEstimators)
  {
    ghost var runs := OobRuns(learner, data, family, maxEstimators);
    var errors: seq<real> := [];
    var nEstimators := 18;
    while nEstimators < maxEstimators
      invariant 18 <= nEstimators && nEstimators - 18 <= |runs|
      invariant FoldResults(runs[..nEstimators - 18], [], Append) == Ok(errors)
    {
      var built := Build(family, data, name, OobArgs(nEstimators));
      if built.Err? {
        FoldResultsFails(runs, [], Append, nEstimators - 18, built.error);
        return Err(built.error);
      }
      var treeModel := built.value;
      treeModel.Fit();
      var oobError := 1.0 - learner.oobScore(treeModel.model);
      FoldResultsStep(runs, [], Append, nEstimators - 18, errors, oobError);
      errors := errors + [oobError];
      nEstimators := nEstimators + 1;
    }
    assert runs[..nEstimators - 18] == runs;
    return Ok(errors);
  }

  /** `oob_erros_trees`: skip "gradient_boost", sweep the estimator count of every
      other family, and keep the count of the least out-of-bag error. */
  method OobErrorsTrees(learner: Learner, data: Data, modelsToTest: Dict<string, Family>, maxEstimators: int)
    returns (r: Result<Dict<string, OobResult>>)
    ensures r == OobErrors(learner, data, modelsToTest, maxEstimators)
  {
    ghost var outcomes := OobEntries(learner, data, modelsToTest, maxEstimators);
    var oobErrors: Dict<string, OobResult> := [];
    var i := 0;
    while i < |modelsToTest|
      invariant 0 <= i <= |modelsToTest|
      invariant FoldResults(outcomes[..i], [], PutSome) == Ok(oobErrors)
    {
      var name, family := modelsToTest[i].0, modelsToTest[i].1;
      if name == "gradient_boost" {
        FoldResultsStep(outcomes, [], PutSome, i, oobErrors, None);
        i := i + 1;
        continue;
      }
      var errors := SweepEstimators(learner, data, name, family, maxEstimators);
      if errors.Err? {
        FoldResultsFails(outcomes, [], PutSome, i, errors.error);
        return Err(errors.error);
      }
      var optimalEstimator := ArgMin(errors.value);
      if optimalEstimator.Err? {
        FoldResultsFails(outcomes, [], PutSome, i, optimalEstimator.error);
        return Err(optimalEstimator.error);
      }
      var k := optimalEstimator.value;
      var optimalValue := errors.value[k];
      var result := OobResult(Range(18, maxEstimators), errors.value, k + 18, optimalValue);
      FoldResultsStep(outcomes, [], PutSome, i, oobErrors, Some((name, result)));
      oobErrors := Put(oobErrors, name, result);
      i := i + 1;
    }
    assert outcomes[..i] == outcomes;
    return Ok(oobErrors);
  }

  // ---------------------------------------------------------------------------
  // What the out-of-bag sweep finds

  /** The two families whose constructors take `oob_score` and `bootstrap`. */
  predicate TakesOob(family: Family)
  {
    family == ExtraTrees || family == RandomForest
  }

  /** The out-of-bag error of each estimator count from 18 to `maxEstimators - 1`. */
  function OobErrorList(learner: Learner, data: Data, family: Family, maxEstimators: int): (r: seq<real>)
    requires TakesOob(family)
    ensures |r| == |Range(18, maxEstimators)|
  {
    seq(|Range(18, maxEstimators)|, i requires 0 <= i < |Range(18, maxEstimators)| =>
      OobError(learner, data, family, 18 + i).value)
  }

  /** A family taking out-of-bag scoring lists one error per estimator count, in order. */
  lemma OobSweepList(learner: Learner, data: Data, family: Family, maxEstimators: int)
    requires TakesOob(family)
    ensures OobSweep(learner, data, family, maxEstimators) == Ok(OobErrorList(learner, data, family, maxEstimators))
  {
    FoldAppendAll(OobRuns(learner, data, family, maxEstimators), OobErrorList(learner, data, family, maxEstimators));
  }

  /** Any other family stops the sweep at its first model: its constructor has no
      `oob_score`. */
  lemma OobSweepRejects(learner: Learner, data: Data, family: Family, maxEstimators: int)
    requires !TakesOob(family) && maxEstimators > 18
    ensures OobSweep(learner, data, family, maxEstimators) == Err(TypeError("oob_score"))
  {
    var runs := OobRuns(learner, data, family, maxEstimators);
    assert runs[..0] == [];
    FoldResultsFails(runs, [], Append, 0, TypeError("oob_score"));
  }

  /** A swept family records the counts 18 to `maxEstimators - 1`, their errors, and
      as optimum the count at the first position of the least error. */
  lemma OobEntryOptimum(learner: Learner, data: Data, name: string, family: Family, maxEstimators: int)
    returns (i: nat)
    requires name != "gradient_boost" && TakesOob(family) && maxEstimators > 18
    ensures var o := OobEntry(learner, data, (name, family), maxEstimators);
      o.Ok? && o.value.Some? && o.value.value.0 == name &&
      var res := o.value.value.1;
      res.estimators == Range(18, maxEstimators) &&
      res.errors == OobErrorList(learner, data, family, maxEstimators) &&
      IsFirstMin(res.errors, i) && res.optimalEstimator == 18 + i == res.estimators[i] &&
      res.optimalValue == res.errors[i]
  {
    OobSweepList(learner, data, family, maxEstimators);
    i := ArgMin(OobErrorList(learner, data, family, maxEstimators)).value;
  }

  /** With no estimator count to try, `np.argmin` of the empty list raises. */
  lemma OobEntryEmpty(learner: Learner, data: Data, name: string, family: Family, maxEstimators: int)
    requires name != "gradient_boost" && TakesOob(family) && maxEstimators <= 18
    ensures OobEntry(learner, data, (name, family), maxEstimators).Err?
    ensures OobEntry(learner, data, (name, family), maxEstimators).error.ValueError?
  {
    OobSweepList(learner, data, family, maxEstimators);
  }

  /** What the sweep records per family, when every family it does not skip takes
      out-of-bag scoring. */
  function OobEntryValue(learner: Learner, data: Data, entry: (string, Family), maxEstimators: int)
    : (r: Option<(string, OobResult)>)
    requires entry.0 == "gradient_boost" || TakesOob(entry.1)
    requires maxEstimators > 18
  {
    if entry.0 == "gradient_boost" then None
    else
      var errors := OobErrorList(learner, data, entry.1, maxEstimators);
      var i := ArgMin(errors).value;
      Some((entry.0, OobResult(Range(18, maxEstimators), errors, i + 18, errors[i])))
  }

  lemma OobEntryIs(learner: Learner, data: Data, entry: (string, Family), maxEstimators: int)
    requires entry.0 == "gradient_boost" || TakesOob(entry.1)
    requires maxEstimators > 18
    ensures OobEntry(learner, data, entry, maxEstimators) == Ok(OobEntryValue(learner, data, entry, maxEstimators))
  {
    if entry.0 != "gradient_boost" {
      OobSweepList(learner, data, entry.1, maxEstimators);
    }
  }

  function OobEntryValues(learner: Learner, data: Data, models: Dict<string, Family>, maxEstimators: int)
    : (r: seq<Option<(string, OobResult)>>)
    requires maxEstimators > 18
    requires forall i :: 0 <= i < |models| ==> models[i].0 == "gradient_boost" || TakesOob(models[i].1)
    ensures |r| == |models|
    ensures forall i :: 0 <= i < |models| ==> r[i] == OobEntryValue(learner, data, models[i], maxEstimators)
  {
    seq(|models|, i requires 0 <= i < |models| => OobEntryValue(learner, data, models[i], maxEstimators))
  }

  /** Over distinct names, each of "gradient_boost" or of a family taking out-of-bag
      scoring: every name but "gradient_boost" is recorded, once. */
  lemma OobErrorsSkip(learner: Learner, data: Data, models: Dict<string, Family>, maxEstimators: int)
    requires DistinctKeys(models) && maxEstimators > 18
    requires forall i :: 0 <= i < |models| ==> models[i].0 == "gradient_boost" || TakesOob(models[i].1)
    ensures OobErrors(learner, data, models, maxEstimators).Ok?
    ensures DistinctKeys(OobErrors(learner, data, models, maxEstimators).value)
    ensures forall k :: k in Keys(OobErrors(learner, data, models, maxEstimators).value) <==>
      k in Keys(models) && k != "gradient_boost"
  {
    var entries := OobEntries(learner, data, models, maxEstimators);
    var os := OobEntryValues(learner, data, models, maxEstimators);
    var ks := Keys(models);
    forall i | 0 <= i < |models| ensures entries[i] == Ok(os[i]) {
      OobEntryIs(learner, data, models[i], maxEstimators);
    }
    PresentKeys(os, ks);
    FoldSomeFresh(entries, os);
  }
}
