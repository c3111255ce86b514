/** Running the registered models: pairing the two sweeps' optima into tuned
    hyperparameters, and building, fitting and scoring every model with them. */
module MachineLearning {
  import opened Tables
  import opened Dicts
  import opened Models

  /** The tuned hyperparameters of a model: (depth, number of estimators). */
  type Params = Dict<string, (int, int)>

  function Min(a: int, b: int): int
  {
    if a <= b then a else b
  }

  /** One pass of the zip: the mse-optimal depth of the depth entry and the optimal
      estimator count of the out-of-bag entry, under the depth entry's name; a
      KeyError when the depth entry has no "mse" choice. */
  function ParamEntry(depthEntry: (string, Dict<string, DepthChoice>), oobEntry: (string, OobResult))
    : Result<(string, (int, int))>
  {
    match Get(depthEntry.1, "mse")
    case None => Err(KeyError("mse"))
    case Some(choice) => Ok((depthEntry.0, (choice.optimalDepth, oobEntry.1.optimalEstimator)))
  }

  /** The passes of the zip: as many as the shorter of the two dicts. */
  function ParamEntries(optimalDepths: Dict<string, Dict<string, DepthChoice>>, oobErrors: Dict<string, OobResult>)
    : (r: seq<Result<(string, (int, int))>>)
    ensures |r| == Min(|optimalDepths|, |oobErrors|)
    ensures forall i :: 0 <= i < |r| ==> r[i] == ParamEntry(optimalDepths[i], oobErrors[i])
  {
    var n := Min(|optimalDepths|, |oobErrors|);
    seq(n, i requires 0 <= i < n => ParamEntry(optimalDepths[i], oobErrors[i]))
  }

  /** `find_optimal_params` */
  function OptimalParams(optimalDepths: Dict<string, Dict<string, DepthChoice>>, oobErrors: Dict<string, OobResult>)
    : Result<Params>
  {
    FoldResults(ParamEntries(optimalDepths, oobErrors), [], PutPair)
  }

  /** `find_optimal_params`: zip the two dicts by position and keep, under each
      depth entry's name, its mse-optimal depth and the out-of-bag optimal count. */
  method FindOptimalParams(optimalDepths: Dict<string, Dict<string, DepthChoice>>, oobErrors: Dict<string, OobResult>)
    returns (r: Result<Params>)
    ensures r == OptimalParams(optimalDepths, oobErrors)
  {
    ghost var passes := ParamEntries(optimalDepths, oobErrors);
    var params: Params := [];
    var i := 0;
    while i < |optimalDepths| && i < |oobErrors|
      invariant 0 <= i <= |passes|
      invariant FoldResults(passes[..i], [], PutPair) == Ok(params)
    {
      var name, optDepths := optimalDepths[i].0, optimalDepths[i].1;
      var optimalEstimator := oobErrors[i].1.optimalEstimator;
      var mse := Get(optDepths, "mse");
      if mse.None? {
        FoldResultsFails(passes, [], PutPair, i, KeyError("mse"));
        return Err(KeyError("mse"));
      }
      var optimalDepth := mse.value.optimalDepth;
      FoldResultsStep(passes, [], PutPair, i, params, (name, (optimalDepth, optimalEstimator)));
      params := Put(params, name, (optimalDepth, optimalEstimator));
      i := i + 1;
    }
    assert passes[..i] == passes;
    return Ok(params);
  }

  /** The choices hold one for mse. */
  predicate HasMse(choices: Dict<string, DepthChoice>)
  {
    "mse" in Keys(choices)
  }

  /** The mse-optimal depth of a family's choices (0 where there is none). */
  function MseDepth(choices: Dict<string, DepthChoice>): int
  {
    match Get(choices, "mse")
    case Some(c) => c.optimalDepth
    case None => 0
  }

  /** The zipped parameters: the i-th depth entry's name with its mse-optimal depth
      and the i-th out-of-bag optimal count. */
  function Zipped(optimalDepths: Dict<string, Dict<string, DepthChoice>>, oobErrors: Dict<string, OobResult>)
    : (r: Params)
    ensures |r| == Min(|optimalDepths|, |oobErrors|)
    ensures forall i :: 0 <= i < |r| ==> r[i] == (optimalDepths[i].0, (MseDepth(optimalDepths[i].1), oobErrors[i].1.optimalEstimator))
  {
    var n := Min(|optimalDepths|, |oobErrors|);
    seq(n, i requires 0 <= i < n => (optimalDepths[i].0, (MseDepth(optimalDepths[i].1), oobErrors[i].1.optimalEstimator)))
  }

  /** Over distinct names, each with an mse choice, the parameters are the zip by
      position: as many as the shorter dict, keyed by the depth names in order, the
      out-of-bag entry's own name playing no part. */
  lemma OptimalParamsZip(optimalDepths: Dict<string, Dict<string, DepthChoice>>, oobErrors: Dict<string, OobResult>)
    requires NoDuplicates(Keys(optimalDepths))
    requires forall i :: 0 <= i < |optimalDepths| ==> HasMse(optimalDepths[i].1)
    ensures OptimalParams(optimalDepths, oobErrors) == Ok(Zipped(optimalDepths, oobErrors))
    ensures Keys(Zipped(optimalDepths, oobErrors)) == Keys(optimalDepths)[..Min(|optimalDepths|, |oobErrors|)]
  {
    var zipped := Zipped(optimalDepths, oobErrors);
    var passes := ParamEntries(optimalDepths, oobErrors);
    ZippedKeys(optimalDepths, oobErrors);
    PrefixDistinct(Keys(optimalDepths), Min(|optimalDepths|, |oobErrors|));
    forall i | 0 <= i < |zipped| ensures passes[i] == Ok(zipped[i]) {
      ParamEntryMse(optimalDepths[i], oobErrors[i]);
    }
    FoldPutFresh(passes, zipped);
  }

  lemma PrefixDistinct<K>(ks: seq<K>, n: nat)
    requires NoDuplicates(ks) && n <= |ks|
    ensures NoDuplicates(ks[..n])
  {
    forall i, j | 0 <= i < j < n ensures ks[..n][i] != ks[..n][j] {
      assert ks[..n][i] == ks[i] && ks[..n][j] == ks[j];
    }
  }

  lemma ParamEntryMse(depthEntry: (string, Dict<string, DepthChoice>), oobEntry: (string, OobResult))
    requires HasMse(depthEntry.1)
    ensures ParamEntry(depthEntry, oobEntry) == Ok((depthEntry.0, (MseDepth(depthEntry.1), oobEntry.1.optimalEstimator)))
  {
  }

  lemma ZippedKeys(optimalDepths: Dict<string, Dict<string, DepthChoice>>, oobErrors: Dict<string, OobResult>)
    ensures Keys(Zipped(optimalDepths, oobErrors)) == Keys(optimalDepths)[..Min(|optimalDepths|, |oobErrors|)]
  {
  }

  /** A depth entry without an mse choice, within the zip, makes the call fail with a KeyError. */
  lemma OptimalParamsMissing(optimalDepths: Dict<string, Dict<string, DepthChoice>>, oobErrors: Dict<string, OobResult>)
    requires OptimalParams(optimalDepths, oobErrors).Ok?
    ensures forall i :: 0 <= i < Min(|optimalDepths|, |oobErrors|) ==> HasMse(optimalDepths[i].1)
  {
    var passes := ParamEntries(optimalDepths, oobErrors);
    FoldResultsAllOk(passes, [], PutPair);
  }

  // ---------------------------------------------------------------------------

  /** The hyperparameters `run_all_models` passes for `name`: none without `params`
      or when `params` has no entry for the name (the KeyError fallback), otherwise
      `depth=p[0]` and `n_estimators=p[1]`. */
  function ArgsFor(params: Option<Params>, name: string): Args
  {
    if params.None? then Defaults
    else
      match Get(params.value, name)
      case None => Defaults
      case Some(p) => Args(Some(p.0), None, Some(p.1), None)
  }

  /** What a run leaves in its `Model` object. */
  datatype Outcome = Outcome(model: Regressor, yPred: Vector, metrics: Dict<string, real>)

  /** Building, fitting and scoring one model, or the error of building it. */
  function RunOne(learner: Learner, data: Data, entry: (string, Family), params: Option<Params>)
    : Result<(string, Outcome)>
  {
    match Configure(entry.1, ArgsFor(params, entry.0))
    case Err(e) => Err(e)
    case Ok(estimator) =>
      var trained := Regressor(estimator, Some((data.xTrain, data.yTrain)));
      Ok((entry.0, Outcome(trained, learner.predict(trained, data.xTest), RunMetrics(learner, data, estimator))))
  }

  function RunOnes(learner: Learner, data: Data, models: Dict<string, Family>, params: Option<Params>)
    : (r: seq<Result<(string, Outcome)>>)
    ensures |r| == |models|
    ensures forall i :: 0 <= i < |models| ==> r[i] == RunOne(learner, data, models[i], params)
  {
    seq(|models|, i requires 0 <= i < |models| => RunOne(learner, data, models[i], params))
  }

  /** `run_all_models`: every model's outcome under its name, or the first error. */
  function RunAll(learner: Learner, data: Data, models: Dict<string, Family>, params: Option<Params>)
    : Result<Dict<string, Outcome>>
  {
    FoldResults(RunOnes(learner, data, models, params), [], PutPair)
  }

  /** The models `ran` hold the outcomes `view`, name by name, each built over `data`
      under its own name. */
  predicate Shows(ran: Dict<string, Model>, view: Dict<string, Outcome>, data: Data)
    reads set j | 0 <= j < |ran| :: ran[j].1
  {
    |ran| == |view| &&
    forall j :: 0 <= j < |ran| ==>
      ran[j].0 == view[j].0 && ran[j].1.name == ran[j].0 && ran[j].1.Holds(data) &&
      ran[j].1.model == view[j].1.model && ran[j].1.yPred == Some(view[j].1.yPred) &&
      ran[j].1.metrics == view[j].1.metrics
  }

  /** The branch of `run_all_models` that picks the constructor's arguments: the
      tuned pair when `params` has the name, the defaults when `params` is None or
      the lookup raises KeyError. */
  method ChooseArgs(params: Option<Params>, name: string) returns (args: Args)
    ensures args == ArgsFor(params, name)
  {
    args := Defaults;
    if params.Some? {
      var p := Get(params.value, name);
      if p.Some? {
        args := Args(Some(p.value.0), None, Some(p.value.1), None);
      }
    }
  }

  /** One pass of `run_all_models`: choose the arguments, build the model, run it. */
  method RunNamed(learner: Learner, data: Data, entry: (string, Family), params: Option<Params>) returns (r: Result<Model>)
    ensures r.Err? ==> RunOne(learner, data, entry, params) == Err(r.error)
    ensures r.Ok? ==> fresh(r.value) && r.value.name == entry.0 && r.value.Holds(data) && r.value.yPred.Some?
    ensures r.Ok? ==> RunOne(learner, data, entry, params) == Ok((entry.0, Outcome(r.value.model, r.value.yPred.value, r.value.metrics)))
  {
    var args := ChooseArgs(params, entry.0);
    r := Build(entry.1, data, entry.0, args);
    if r.Ok? {
      r.value.RunModel(learner);
    }
  }

  /** `run_all_models`: build each model with its tuned hyperparameters, or the
      defaults, run it, and keep it under its name. */
  method RunAllModels(learner: Learner, models: Dict<string, Family>, data: Data, params: Option<Params>)
    returns (r: Result<Dict<string, Model>>)
    requires DistinctKeys(models)
    ensures RunAll(learner, data, models, params).Err? ==> r == Err(RunAll(learner, data, models, params).error)
    ensures RunAll(learner, data, models, params).Ok? ==>
      r.Ok? && Shows(r.value, RunAll(learner, data, models, params).value, data)
  {
    ghost var passes := RunOnes(learner, data, models, params);
    ghost var view: Dict<string, Outcome> := [];
    var ranModels: Dict<string, Model> := [];
    var i := 0;
    while i < |models|
      invariant 0 <= i <= |models|
      invariant FoldResults(passes[..i], [], PutPair) == Ok(view)
      invariant Keys(view) == Keys(models)[..i] && Keys(ranModels) == Keys(models)[..i]
      invariant Shows(ranModels, view, data)
    {
      var name := models[i].0;
      var ran := RunNamed(learner, data, models[i], params);
      if ran.Err? {
        FoldResultsFails(passes, [], PutPair, i, ran.error);
        return Err(ran.error);
      }
      var m := ran.value;
      assert Shows(ranModels, view, data);
      ghost var outcome := Outcome(m.model, m.yPred.value, m.metrics);
      ShowsSnoc(ranModels, view, data, name, m, outcome);
      FoldResultsStep(passes, [], PutPair, i, view, (name, outcome));
      NewName(models, i, view);
      PutAppends(view, name, outcome);
      PutAppends(ranModels, name, m);
      view := Put(view, name, outcome);
      ranModels := Put(ranModels, name, m);
      i := i + 1;
    }
    assert passes[..i] == passes;
    return Ok(ranModels);
  }

  lemma ShowsSnoc(ran: Dict<string, Model>, view: Dict<string, Outcome>, data: Data, name: string, m: Model, outcome: Outcome)
    requires Shows(ran, view, data)
    requires m.name == name && m.Holds(data) && m.model == outcome.model && m.yPred == Some(outcome.yPred) && m.metrics == outcome.metrics
    ensures Shows(ran + [(name, m)], view + [(name, outcome)], data)
  {
  }

  /** The i-th name is not among the names before it. */
  lemma NewName<V, W>(models: Dict<string, V>, i: nat, view: Dict<string, W>)
    requires DistinctKeys(models) && i < |models| && Keys(view) == Keys(models)[..i]
    ensures models[i].0 !in Keys(view)
    ensures Keys(models)[..i + 1] == Keys(models)[..i] + [models[i].0]
  {
    assert Keys(models)[i] == models[i].0;
  }

  // ---------------------------------------------------------------------------

  /** Running one model: its name, and the regressor its class configures with the
      hyperparameters passed, fitted on the training data, with its prediction and
      metrics. */
  function Ran(learner: Learner, data: Data, entry: (string, Family), args: Args): Outcome
    requires Configure(entry.1, args).Ok?
  {
    var trained := Regressor(Configure(entry.1, args).value, Some((data.xTrain, data.yTrain)));
    Outcome(trained, learner.predict(trained, data.xTest), RunMetrics(learner, data, Configure(entry.1, args).value))
  }

  /** Without tuned parameters every model is run with its class's defaults, and
      the run always succeeds, one entry per name, in order. */
  lemma RunAllDefaults(learner: Learner, data: Data, models: Dict<string, Family>)
    requires DistinctKeys(models)
    ensures RunAll(learner, data, models, None) ==
      Ok(seq(|models|, i requires 0 <= i < |models| => (models[i].0, Ran(learner, data, models[i], Defaults))))
  {
    var ran := seq(|models|, i requires 0 <= i < |models| => (models[i].0, Ran(learner, data, models[i], Defaults)));
    forall i | 0 <= i < |models| ensures Configure(models[i].1, Defaults).Ok? {
      ConfigureTuned(models[i].1, 0, 0);
    }
    assert Keys(ran) == Keys(models);
    FoldPutFresh(RunOnes(learner, data, models, None), ran);
  }

  /** The arguments each name receives: the tuned depth and estimator count when
      `params` has the name, the defaults when it has not. */
  lemma ArgsForParams(params: Params, name: string)
    ensures Get(params, name).Some? ==>
      ArgsFor(Some(params), name) == Args(Some(Get(params, name).value.0), None, Some(Get(params, name).value.1), None)
    ensures name !in Keys(params) ==> ArgsFor(Some(params), name) == Defaults
  {
  }

  /** A name that `params` covers is run with the tuned values only if its class is
      an ensemble; otherwise the call raises a TypeError on `depth`. */
  lemma RunOneTuned(learner: Learner, data: Data, entry: (string, Family), params: Params)
    requires entry.0 in Keys(params)
    ensures IsEnsemble(entry.1) ==>
      var p := Get(params, entry.0).value;
      var o := RunOne(learner, data, entry, Some(params));
      o.Ok? && HasDepth(o.value.1.model.estimator) &&
      o.value.1.model.estimator.maxDepth == p.0 && o.value.1.model.estimator.nEstimators == p.1
    ensures !IsEnsemble(entry.1) ==> RunOne(learner, data, entry, Some(params)) == Err(TypeError("depth"))
  {
    var p := Get(params, entry.0).value;
    ConfigureTuned(entry.1, p.0, p.1);
  }

  /** A name missing from `params` falls back to the defaults and never fails. */
  lemma RunOneFallback(learner: Learner, data: Data, entry: (string, Family), params: Params)
    requires entry.0 !in Keys(params)
    ensures RunOne(learner, data, entry, Some(params)) == RunOne(learner, data, entry, None)
    ensures RunOne(learner, data, entry, None).Ok?
  {
    ConfigureTuned(entry.1, 0, 0);
  }

  // ---------------------------------------------------------------------------
  // The validation and running steps as the entry point chains them

  /** The families the entry point sweeps, under their names. */
  const ModelsToTest: Dict<string, Family> := [
    ("extra_trees", ExtraTrees),
    ("random_forest", RandomForest),
    ("gradient_boost", GradientBoost)
  ]

  /** What the out-of-bag sweep files for each of `ModelsToTest`: the extra trees and the
      random forest under their names, nothing for gradient boosting. */
  lemma TestedOobValues(learner: Learner, data: Data, maxEstimators: int)
    returns (et: (string, OobResult), rf: (string, OobResult))
    requires maxEstimators > 18
    ensures OobEntryValues(learner, data, ModelsToTest, maxEstimators) == [Some(et), Some(rf), None]
    ensures et.0 == "extra_trees" && rf.0 == "random_forest"
  {
    var os := OobEntryValues(learner, data, ModelsToTest, maxEstimators);
    et, rf := os[0].value, os[1].value;
  }

  /** Two entries present out of three, the last absent. */
  lemma PresentFirstTwo<T>(a: T, b: T)
    ensures Present([Some(a), Some(b), None]) == [a, b]
  {
    var os := [Some(a), Some(b), None];
    var two, one := os[..2], os[..1];
    assert two[..1] == one && one[..0] == [];
    assert Present(one) == [a];
    assert Present(two) == [a, b];
  }

  /** The out-of-bag sweep over `ModelsToTest` records the extra trees and then the
      random forest, and skips gradient boosting. */
  lemma MainOob(learner: Learner, data: Data, maxEstimators: int)
    requires maxEstimators > 18
    ensures OobErrors(learner, data, ModelsToTest, maxEstimators) ==
      Ok([OobEntryValue(learner, data, ModelsToTest[0], maxEstimators).value,
          OobEntryValue(learner, data, ModelsToTest[1], maxEstimators).value])
    ensures Keys(OobErrors(learner, data, ModelsToTest, maxEstimators).value) == ["extra_trees", "random_forest"]
  {
    var os := OobEntryValues(learner, data, ModelsToTest, maxEstimators);
    var et, rf := TestedOobValues(learner, data, maxEstimators);
    PresentFirstTwo(et, rf);
    assert Keys([et, rf]) == ["extra_trees", "random_forest"];
    var entries := OobEntries(learner, data, ModelsToTest, maxEstimators);
    forall i | 0 <= i < 3 ensures entries[i] == Ok(os[i]) {
      OobEntryIs(learner, data, ModelsToTest[i], maxEstimators);
    }
    FoldSomeFresh(entries, os);
  }

  /** The validation run of `main.py`, with both sweeps at their default bounds: every
      model of `ModelsToTest` records the 25 depths 1 to 25 for each metric, and the
      out-of-bag sweep files the extra trees and the random forest, each over the 83
      estimator counts 18 to 100. */
  lemma MainValidation(learner: Learner, data: Data)
    ensures OptimalDepths(learner, data, ModelsToTest, DefaultMaxDepth) ==
      Ok(DepthTable(learner, data, ModelsToTest, DefaultMaxDepth))
    ensures forall i, t :: 0 <= i < |ModelsToTest| && 0 <= t < |MetricKeys| ==>
      DepthTable(learner, data, ModelsToTest, DefaultMaxDepth)[i].1[t].1.depths == Range(1, 26) &&
      |Range(1, 26)| == 25
    ensures var oob := OobErrors(learner, data, ModelsToTest, DefaultMaxEstimators);
      oob.Ok? && Keys(oob.value) == ["extra_trees", "random_forest"] &&
      oob.value[0].1.estimators == oob.value[1].1.estimators == Range(18, 101) &&
      |Range(18, 101)| == 83
  {
    forall i, t | 0 <= i < |ModelsToTest| && 0 <= t < |MetricKeys|
      ensures DepthTable(learner, data, ModelsToTest, DefaultMaxDepth)[i].1[t].1.depths == Range(1, 26)
    {
      var _ := DepthChoiceAt(learner, data, ModelsToTest[i].1, DefaultMaxDepth, t);
    }
    OptimalDepthsAll(learner, data, ModelsToTest, DefaultMaxDepth);
    MainOob(learner, data, DefaultMaxEstimators);
  }

  /** Every family's depth choices hold one for mse. */
  lemma DepthTableMse(learner: Learner, data: Data, models: Dict<string, Family>, maxDepth: int)
    requires maxDepth > 1
    ensures forall i :: 0 <= i < |models| ==> HasMse(DepthTable(learner, data, models, maxDepth)[i].1)
  {
    forall i | 0 <= i < |models| ensures HasMse(DepthTable(learner, data, models, maxDepth)[i].1) {
      assert Keys(DepthChoices(learner, data, models[i].1, maxDepth))[0] == "mse";
    }
  }

  /** Every model runs under its own name: the outcomes in the order of `models`. */
  lemma RunAllEach(learner: Learner, data: Data, models: Dict<string, Family>, params: Option<Params>)
    requires DistinctKeys(models)
    requires forall i :: 0 <= i < |models| ==> RunOne(learner, data, models[i], params).Ok?
    ensures RunAll(learner, data, models, params) ==
      Ok(seq(|models|, i requires 0 <= i < |models| => RunOne(learner, data, models[i], params).value))
  {
    var outcomes := seq(|models|, i requires 0 <= i < |models| => RunOne(learner, data, models[i], params).value);
    assert Keys(outcomes) == Keys(models);
    FoldPutFresh(RunOnes(learner, data, models, params), outcomes);
  }

  /** An estimator configured with the depth and estimator count of `p`. */
  predicate TunedTo(e: Estimator, p: (int, int))
  {
    HasDepth(e) && e.maxDepth == p.0 && e.nEstimators == p.1
  }

  /** With tuned parameters only for ensembles, every model runs, in order and
      under its own name: a name with parameters gets its tuned depth and
      estimator count, any other name its class's defaults. */
  lemma RunAllTuned(learner: Learner, data: Data, models: Dict<string, Family>, params: Params)
    requires DistinctKeys(models)
    requires forall i :: 0 <= i < |models| && models[i].0 in Keys(params) ==> IsEnsemble(models[i].1)
    ensures var ran := RunAll(learner, data, models, Some(params));
      ran.Ok? && Keys(ran.value) == Keys(models) &&
      forall i :: 0 <= i < |models| ==>
        var e := ran.value[i].1.model.estimator;
        if models[i].0 in Keys(params) then TunedTo(e, Get(params, models[i].0).value)
        else e == Configure(models[i].1, Defaults).value
  {
    forall i | 0 <= i < |models| ensures RunOne(learner, data, models[i], Some(params)).Ok? {
      if models[i].0 in Keys(params) {
        RunOneTuned(learner, data, models[i], params);
      } else {
        RunOneFallback(learner, data, models[i], params);
      }
    }
    RunAllEach(learner, data, models, Some(params));
    forall i | 0 <= i < |models| ensures
      var e := RunOne(learner, data, models[i], Some(params)).value.1.model.estimator;
      if models[i].0 in Keys(params) then TunedTo(e, Get(params, models[i].0).value)
      else e == Configure(models[i].1, Defaults).value
    {
      if models[i].0 in Keys(params) {
        RunOneTuned(learner, data, models[i], params);
      }
    }
  }

  /** Running the registry with parameters for the extra trees and the random forest
      only: the gradient boosting model, registered as "gradient_boos", runs with
      its defaults (depth 18, 50 estimators). */
  lemma MainRun(learner: Learner, data: Data, params: Params)
    requires Keys(params) == ["extra_trees", "random_forest"]
    ensures var ran := RunAll(learner, data, Registry, Some(params));
      ran.Ok? && Keys(ran.value) == Keys(Registry) &&
      ran.value[4].1.model.estimator == GradientBoostingRegressor(18, 50)
  {
    RegistryNames();
    assert "gradient_boos" !in Keys(params);
    RunAllTuned(learner, data, Registry, params);
  }

  lemma RegistryNames()
    ensures Keys(Registry) == ["linear_regression", "decison_tree", "extra_trees", "random_forest", "gradient_boos"]
    ensures DistinctKeys(Registry)
  {
  }
}
