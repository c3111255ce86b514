# Port climate risk: a Dafny model of the pipeline core

This project models the data-processing core of *port_climate_risk*. That program estimates how natural-hazard downtime at sea ports puts countries' maritime trade at risk, then tunes and runs tree regressors on the result. The model covers six parts:

- **Port/hazard merge** (`merge.py`, module `PortMerge`). Long (port, hazard, days) rows are pivoted into one row per port, with six hazard columns, zero-filled gaps and a total. The trade network is joined to its sector map.
- **Trade aggregation** (`trade.py`, module `Trade`).
  - Per-country denominators are summed over `port_import` edges.
  - Per-port flows are summed over all edges.
  - The two are inner-joined to each other and to the ports table, then renamed.
  - `create_trade_dataframe` builds the four export/import tables, overall and by sector.
- **Risk computation** (`risk.py`, module `Risk`).
  - Per-flow at-risk and weighted-downtime columns.
  - Group sums broadcast back onto every row.
  - The domestic/foreign split of import and export risk, and the volume-weighted blend of the two.
  - The pairing of the trade tables as (export, import) for each hazard.
  - `merge_risk` writes an `iso3_sector` column into its argument frames. It is a method on `RiskFrame` objects that it updates in place.
- **Models and hyperparameter selection** (`models.py`, module `Models`).
  - The `Model` class, with its `model`, `y_pred` and `metrics` fields updated by `Fit`, `FitAndPredict`, `ComputeMetrics` and `RunModel`.
  - The five-entry registry.
  - The depth sweep, with arg-min per metric and arg-max for r2.
  - The out-of-bag sweep, which skips `"gradient_boost"` and offsets the optimum by 18.
- **Parameter pairing and model running** (`machine_learning.py`, module `MachineLearning`). `find_optimal_params` zips the two sweeps by position. `run_all_models` tries tuned parameters and falls back to defaults on a missing key.
- **LaTeX text** (`latex.py`, module `Latex`). `format_name`, `format_header`, and the assembly of the statistics and metrics tables.

Shared modules model the Python and pandas building blocks:

- `Tables`: records as rows, filters, group sums, first-occurrence `Distinct`, inner joins in left order, and `FoldResults` for a loop that may raise.
- `Dicts`: an insertion-ordered dict as a sequence of pairs, with `Put`, `Get` and the pivot of nested dicts.
- `Strings`: ASCII `upper`, `title`, `split` and `join`.

The floating-point table contents are `real`. A `Float` datatype carries the one NaN the code can produce. scikit-learn is a `Learner` record of functions, covering prediction, out-of-bag score and each metric. The LaTeX float formatter is a parameter `fmt`.

Every loop of the source is a `method` proved equal to a specification function:

- The loops that may raise are `while` loops. Each is proved equal to a fold (`Tables.FoldResults`) over a named function of per-pass outcomes, and the lemmas about that function carry the properties. These are `Models.SweepDepths`, `Models.SelectOptimal`, `Models.OptimalDepthTrees`, `Models.SweepEstimators`, `Models.OobErrorsTrees`, `MachineLearning.FindOptimalParams`, `MachineLearning.RunAllModels` and `Risk.CreateRiskDataframe`.
- The nested `while` loops of the `metrics_scores` regrouping (`Models.PivotScores`) are proved equal to `Dicts.Pivot`.
- The two `for` loops that build LaTeX text (`Latex.MakeStatsTable`, `Latex.MakeMetricsTable`) are proved equal to `Latex.StatsTable` and `Latex.MetricsTable`, whose data lines are `Latex.Data`.

`Models.Model` is a class whose methods change its fields.

## Model

| member | source | states |
|---|---|---|
| PortMerge.MergePortsRisk | port_risk/preprocessing/merge.py:25-43 | on success every row's total is the sum of its six hazard columns, and no port key appears twice |
| PortMerge.JoinOnNameMembers | port_risk/preprocessing/merge.py:25 | an observation is in the join iff some risk row and some port share its port name |
| PortMerge.CellValue | port_risk/preprocessing/merge.py:27-31 | without repeated (port, hazard) pairs, a cell is the days of the matching observation, and 0 when there is none |
| PortMerge.MergedCells | port_risk/preprocessing/merge.py:27-39 | the hazard labels are six, strictly sorted, and column j of each row holds that port's days for the j-th sorted label |
| PortMerge.MergedMissingIsZero | port_risk/preprocessing/merge.py:27-31 | a (port, hazard) pair absent from the input yields 0 in that column |
| PortMerge.MergedPorts | port_risk/preprocessing/merge.py:27-41 | the output ports are exactly the port keys of the joined observations |
| PortMerge.CanonicalHazardOrder | port_risk/preprocessing/merge.py:32-39 | when the hazards are exactly the six labels, sorted order matches the fixed column names positionally |
| PortMerge.TotalBoundsEachHazard | port_risk/preprocessing/merge.py:40 | with non-negative days, every hazard column lies between 0 and the row total |
| PortMerge.MergedCellNonNegative | port_risk/preprocessing/merge.py:27-31 | with non-negative days, every merged cell is non-negative |
| PortMerge.RowWithinTotal | port_risk/preprocessing/merge.py:40 | a total of non-negative columns bounds each column |
| PortMerge.CellNonNegative | port_risk/preprocessing/merge.py:30 | a filled cell of non-negative observations is non-negative |
| PortMerge.DropsUnknownPorts | port_risk/preprocessing/merge.py:25 | removing risk rows whose port name is not in the ports table changes nothing |
| PortMerge.DuplicatePairFails | port_risk/preprocessing/merge.py:27-29 | a repeated (port name, hazard) pair for a known port makes the unstack fail |
| PortMerge.MergeNetworkMembers | port_risk/preprocessing/merge.py:64 | an edge is in the result iff a network row and a mapping row share its Industries value |
| PortMerge.MergeNetworkKeepsKnown | port_risk/preprocessing/merge.py:64 | with unique mapping keys, the result is exactly the network rows whose Industries value is mapped, in order |
| Trade.PreprocessTrade | port_risk/preprocessing/trade.py:33-59 | the table records whether it was grouped by sector; its rows are characterised by Trade.RowSums, Trade.RowsPresent, Trade.RowCountries and Trade.FlowsAddUpToTotals |
| Trade.CountryFlowsRows | port_risk/preprocessing/trade.py:37-45 | each denominator row is a group key of the port_import edges, and its totals are the sums over those edges |
| Trade.CountryFlowsTotalRows | port_risk/preprocessing/trade.py:47-50 | each flow row is a (group, id) key of the network, and its flows are the sums over all edges with that key |
| Trade.RowOrigin | port_risk/preprocessing/trade.py:52-57 | every output row is a flow row joined to its group's totals and to the port of its id, renamed |
| Trade.RowSums | port_risk/preprocessing/trade.py:33-50 | row totals sum the port_import edges of the row's group, and row flows sum all edges of the row's (group, id) |
| Trade.RowCountries | port_risk/preprocessing/trade.py:52-57 | `iso3` is the side's country of some edge of the port, and `port_iso3`, name and geometry come from that port |
| Trade.RowsPresent | port_risk/preprocessing/trade.py:47-54 | a (group, id) key is in the output iff it occurs in the network, its group has a port_import edge, and its id is a known port |
| Trade.RowPresentOnlyIf | port_risk/preprocessing/trade.py:52-54 | flows without a port_import group or an unknown port are dropped |
| Trade.RowPresentIf | port_risk/preprocessing/trade.py:52-54 | every network key with a port_import group and a known port survives |
| Trade.FlowsAddUp | port_risk/preprocessing/trade.py:47-50 | per group, the flow rows add up to the sum over all edges of that group |
| Trade.TotalsUnique | port_risk/preprocessing/trade.py:37-45 | the denominator table has one row per group key |
| Trade.FlowHasTotal | port_risk/preprocessing/trade.py:37-52 | if every edge is port_import, each flow's group has a denominator row |
| Trade.FlowsHaveTotals | port_risk/preprocessing/trade.py:37-52 | if every edge is port_import, the first join keeps every flow row, in order |
| Trade.FlowIdFromEdge | port_risk/preprocessing/trade.py:47-52 | every joined flow's id is the id of some edge |
| Trade.FlowsHavePorts | port_risk/preprocessing/trade.py:54 | with unique port ids covering the network, the join with ports keeps every row in order |
| Trade.RowSumsAreFlowSums | port_risk/preprocessing/trade.py:52-57 | per group, the output flows add up to the joined flow rows' sums |
| Trade.FlowsAddUpToTotals | port_risk/preprocessing/trade.py:37-54 | if every edge is port_import and every port id is known and unique, a group's output flows sum to its totals |
| Trade.PositiveTotals | port_risk/preprocessing/trade.py:37-45 | positive port_import flows give positive denominators on every row |
| Trade.TradeDictKeys | port_risk/preprocessing/trade.py:78-86 | the four insertions list the keys export_trade, import_trade, export_trade_sector, import_trade_sector |
| Trade.TradeDictGet | port_risk/preprocessing/trade.py:78-86 | each of the four keys holds the value stored under it |
| Trade.CreateTradeDataframe | port_risk/preprocessing/trade.py:78-86 | exactly four tables in that order: export and import overall, then by sector, each from the matching side and flag |
| Risk.HazardIndex | port_risk/models/risk.py:38 | a hazard names a column iff it is one of the six downtime columns or the total, and the index finds that column |
| Risk.ComputeTradeRisk | port_risk/models/risk.py:38-66 | succeeds iff the hazard is one of the seven downtime columns and, by sector, the table has sector columns; keeps the table's sector flag; the hazard "id" raises ValueError (the merge on a duplicated `id` label), any other name KeyError, and a table without sectors KeyError("sector") |
| Risk.MergedRiskRow | port_risk/models/risk.py:38-47 | each merged row comes from a trade row and a port of the same id, with the at-risk columns of that pair |
| Risk.NetworkCovers | port_risk/models/risk.py:49-57 | the network table has one row per group, and every row's group is in it |
| Risk.Broadcast | port_risk/models/risk.py:49-64 | the broadcast join keeps the row count and order, and each row gains the sums of the weighted columns over its group |
| Risk.ComputedRow | port_risk/models/risk.py:64 | each output row is a merged row with network columns added |
| Risk.RowColumns | port_risk/models/risk.py:38-47 | each output row's flow is a trade row, its downtime is the hazard of its port, and the at-risk and weighted columns follow the two formulas |
| Risk.WeightedBounds | port_risk/models/risk.py:42-47 | with 0 <= flow <= total and non-negative downtime, the weighted downtime lies in [0, downtime] |
| Risk.ShareBounds | port_risk/models/risk.py:42-47 | a share of a non-zero total times a non-negative downtime lies in [0, downtime] |
| Risk.WithIso3SectorTwice | port_risk/models/risk.py:102-103 | adding the iso3_sector column twice is the same as once; `WithIso3Sector` gives every row `iso3 + "_" + sector` and changes nothing else |
| Risk.Blend | port_risk/models/risk.py:170-175 | the blend is NaN exactly when imports plus exports is 0 |
| Risk.MergeRiskRows | port_risk/models/risk.py:97-185 | on success, one row per key of either side, no key twice |
| Risk.GlobalRowOf | port_risk/models/risk.py:132-175 | every row belongs to a key of either side and is that key's aligned row |
| Risk.GlobalRowsCoverKeys | port_risk/models/risk.py:132-160 | a key has a row iff some import or export row carries it |
| Risk.TotalRiskPartition | port_risk/models/risk.py:106-130 | total import and export risk are the sums of the weighted column over all rows of the key, split exactly into domestic and foreign |
| Risk.FirstTotalOfAll | port_risk/models/risk.py:142-153 | without conflicting totals, a key's volume is the total of any of its rows, and 0 when it has none |
| Risk.VolumesAreTotals | port_risk/models/risk.py:142-162 | imports and exports are the side's flow total for the key, and 0 after the NaN fill when the side lacks the key |
| Risk.IdsUnderMembers | port_risk/models/risk.py:157-158 | the listed ids are exactly the port ids of the key's rows |
| Risk.PortCounts | port_risk/models/risk.py:157-158 | both port counts are the number of distinct port ids among the side's rows of the key |
| Risk.PortCountIsIds | port_risk/models/risk.py:157-158 | the count of distinct ids is the size of the set of ids |
| Risk.BlendBetween | port_risk/models/risk.py:170-175 | with non-negative volumes and a positive sum, the blend lies between import and export risk |
| Risk.TotalRiskOfKey | port_risk/models/risk.py:162-175 | every row's total risk is the blend of its totals by its volumes, NaN exactly when both volumes are 0 |
| Risk.GlobalRowBlends | port_risk/models/risk.py:170-175 | a key's total risk is the volume-weighted blend of its import and export totals |
| Risk.SplitRecovers | port_risk/models/risk.py:177-183 | by sector, splitting the key on "_" recovers iso3 and sector when neither contains "_" |
| Risk.PortCountNamesCollide | port_risk/models/risk.py:157-158 | as written, the table has two columns named n_ports_import |
| Risk.GlobalColumnsDistinct | port_risk/models/risk.py:157-158 | with the export count named n_ports_export, the column names are distinct |
| Risk.FrameAfterTwice | port_risk/models/risk.py:100-104 | updating a frame for a by-sector merge is idempotent, so merging the same frames twice sees the same rows |
| Risk.MergeRisk | port_risk/models/risk.py:69-185 | by sector both frames gain iso3_sector, the export frame only when the import frame has sectors; the result is the merge of the updated rows, or KeyError("sector") |
| Risk.RunPair | port_risk/models/risk.py:213-233 | one pass computes the export risk from table i and the import risk from table i+1, with sectors iff both names contain "sector" |
| Risk.CreateRiskDataframe | port_risk/models/risk.py:208-237 | the nested loops produce the fold of the per-hazard entries, each the fold of its passes, or the first error raised |
| Risk.OddTablesFail | port_risk/models/risk.py:212-214 | with an odd table count, every hazard's inner loop fails, with IndexError if no earlier pass failed; the passes are `Outcomes`, pass k built from tables 2k and 2k+1, so the last table has no partner |
| Risk.OddTablesRaise | port_risk/models/risk.py:209-214 | with an odd table count and at least one hazard, create_risk_dataframe raises; the per-hazard results are `HazardEntries`, and the first hazard's failure is raised |
| Risk.FiledKeys | port_risk/models/risk.py:225-236 | a pass files import, export, value and quantity, each with the pass's suffix, in that order |
| Models.Configure | port_risk/models/models.py:64-136 | a class builds its regressor iff it declares every argument passed, otherwise a TypeError; the regressor is of that class's family |
| Models.ConfigureTuned | port_risk/models/models.py:76-136 | defaults always build; depth plus estimator count build exactly the three ensembles, with those values |
| Models.MetricPairs | port_risk/models/models.py:41-46 | the metric keys are mse, mae, r2, rmse, mape in that order |
| Models.Model.constructor | port_risk/models/models.py:23-31 | a new model holds its data and name, an unfitted regressor, no predictions, and empty metrics |
| Models.Model.Fit | port_risk/models/models.py:34-35 | the regressor is fitted on the training data and nothing else changes |
| Models.Model.FitAndPredict | port_risk/models/models.py:37-39 | the regressor is fitted and predictions are those of the fitted regressor on the test features |
| Models.Model.ComputeMetrics | port_risk/models/models.py:41-46 | the five metrics of the predictions are inserted into the metrics, and the regressor and predictions are unchanged |
| Models.Model.RunModel | port_risk/models/models.py:54-56 | fits, predicts, then records the five metrics of the new predictions |
| Models.MetricKeysDistinct | port_risk/models/models.py:41-46 | the five metric keys are distinct |
| Models.RunMetricsKeys | port_risk/models/models.py:41-56 | a freshly built model, once run, holds exactly the five keys, each holding its metric of the fitted regressor's predictions; the pairs are `MetricPairs`, each key with its metric (`MetricPairsListed`) |
| Models.ArgMin | port_risk/models/models.py:211 | defined iff the list is non-empty (ValueError otherwise), and the index is the first minimum |
| Models.ArgMax | port_risk/models/models.py:209 | defined iff the list is non-empty (ValueError otherwise), and the index is the first maximum |
| Models.Range | port_risk/models/models.py:185 | `range(lo, hi)`: hi - lo consecutive integers from lo, empty when hi <= lo |
| Models.Build | port_risk/models/models.py:187 | a new model over the data with the configured regressor, or the constructor's TypeError |
| Models.DepthRuns | port_risk/models/models.py:185-189 | one run per depth of range(1, max_depth_tested) |
| Models.SweepDepths | port_risk/models/models.py:184-189 | the depth loop produces the fold of the per-depth runs |
| Models.PivotScores | port_risk/models/models.py:193-199 | the regrouping loop produces the pivot of the depth-to-metrics dict |
| Models.Choose | port_risk/models/models.py:201-218 | defined iff the series is non-empty, and the depths and values are the series' keys and values in order |
| Models.ChooseOptimal | port_risk/models/models.py:204-214 | the optimal depth and value come from one index, the first maximum for r2 and the first minimum otherwise |
| Models.SelectOptimal | port_risk/models/models.py:201-218 | the selection loop produces the fold of the per-metric choices; a metric's choice (`ChooseEntryBest`) sits at the arg-max or arg-min index, or is its error |
| Models.OptimalDepthTrees | port_risk/models/models.py:152-222 | the sweep produces the fold of the per-model entries |
| Models.RangeDistinct | port_risk/models/models.py:185 | the swept depths are distinct |
| Models.DepthRunRow | port_risk/models/models.py:187-189 | an ensemble's run at a depth records the five metrics of the model built with that depth |
| Models.DepthSweepGrid | port_risk/models/models.py:182-189 | an ensemble's sweep is the grid of depths 1..max-1 by the five metrics |
| Models.DepthSweepRejects | port_risk/models/models.py:187 | a family without a depth argument raises TypeError as soon as one depth is tried |
| Models.OptimalDepthsNone | port_risk/models/models.py:182-190 | with max_depth_tested <= 1 no model is recorded |
| Models.DepthChoices | port_risk/models/models.py:193-218 | each model's choices are keyed by the five metrics, in order |
| Models.DepthEntryChoices | port_risk/models/models.py:182-218 | an ensemble's entry is its name with the choice for every metric; the per-metric choices are `ChoiceOutcomes`, folded in metric order |
| Models.DepthChoiceAt | port_risk/models/models.py:185-218 | for each metric, depths are 1..max-1, values are that metric at each depth, and the optimum is the first arg-max for r2 and the first arg-min otherwise |
| Models.OptimalDepthsAll | port_risk/models/models.py:152-222 | for distinct ensembles and max > 1, the sweep succeeds with the per-model choices; the per-model entries are `DepthEntries`; the success value is `DepthTable`, each model under its name with its `DepthChoices` |
| Models.SweepEstimators | port_risk/models/models.py:257-273 | the estimator loop produces the fold of the per-count errors |
| Models.OobErrorsTrees | port_risk/models/models.py:225-284 | the sweep produces the fold of the per-model entries |
| Models.OobErrorList | port_risk/models/models.py:259-273 | one error per estimator count in range(18, max) |
| Models.OobSweepList | port_risk/models/models.py:259-273 | a family that takes out-of-bag scoring yields the list of 1 - oob_score errors; the per-count runs are `OobRuns`, counts 18 to max-1 |
| Models.OobSweepRejects | port_risk/models/models.py:261-270 | gradient boosting under another name raises TypeError on oob_score |
| Models.OobEntryOptimum | port_risk/models/models.py:274-282 | the entry lists counts 18..max-1 with their errors, and the optimum is 18 plus the first arg-min with its error |
| Models.OobEntryEmpty | port_risk/models/models.py:274 | with max_estimators <= 18 the arg-min of the empty list raises ValueError |
| Models.OobEntryIs | port_risk/models/models.py:253-282 | a model that is skipped or takes out-of-bag scoring yields its entry without error |
| Models.OobErrorsSkip | port_risk/models/models.py:253-256 | the result is keyed by exactly the models other than "gradient_boost", without repetition; the per-model entries are `OobEntries`; the entry values are `OobEntryValues` |
| MachineLearning.FindOptimalParams | port_risk/models/machine_learning.py:8-35 | the zip loop produces the fold of the paired entries |
| MachineLearning.OptimalParamsZip | port_risk/models/machine_learning.py:25-34 | with distinct names that all have mse choices, the result is the zip, keyed by the depth names' prefix; the passes are `ParamEntries`, whose i-th pairs the i-th entries of both dicts, and the zip is `Zipped`; each entry pairs the mse-optimal depth with the oob optimum, whatever the oob key (`ParamEntryMse`) |
| MachineLearning.ZippedKeys | port_risk/models/machine_learning.py:25-32 | the keys are the first min(|depths|, |oob|) depth names in order |
| MachineLearning.OptimalParamsMissing | port_risk/models/machine_learning.py:33 | success implies every zipped depth entry has an mse choice |
| MachineLearning.ChooseArgs | port_risk/models/machine_learning.py:72-95 | the constructor arguments are the tuned ones when params holds the name, the defaults otherwise |
| MachineLearning.RunNamed | port_risk/models/machine_learning.py:72-97 | a fresh model over the data, run with the chosen arguments, matches the specified run, or its error |
| MachineLearning.RunAllModels | port_risk/models/machine_learning.py:38-98 | the loop fails with the first failing model, or returns one run model per name in order, matching the specification |
| MachineLearning.RunAllDefaults | port_risk/models/machine_learning.py:93-97 | without params every model runs with its defaults |
| MachineLearning.RunOneTuned | port_risk/models/machine_learning.py:72-87 | an ensemble with params runs with the tuned depth and count; another family raises TypeError; the arguments are `ArgsFor`: depth p[0] and n_estimators p[1] |
| MachineLearning.RunOneFallback | port_risk/models/machine_learning.py:88-92 | a name missing from params runs as with no params, and succeeds; `ArgsFor` gives the defaults for a name without params |
| MachineLearning.TestedOobValues | port_risk/models/models.py:253-282 | of the three models of `models_to_test`, extra_trees and random_forest are filed under their names and gradient_boost yields nothing |
| MachineLearning.MainOob | port_risk/main.py:130-139 | on the three models of `models_to_test` the out-of-bag sweep keeps extra_trees and random_forest only |
| MachineLearning.MainValidation | port_risk/main.py:129-139 | with the sweeps' default bounds (`max_depth_tested` 26 at models.py:158, `max_estimators` 101 at models.py:231), every model of `models_to_test` records depths 1 to 25 for each metric, and the out-of-bag sweep keeps extra_trees and random_forest over estimator counts 18 to 100 |
| MachineLearning.DepthTableMse | port_risk/models/machine_learning.py:33 | every successful depth table has an mse choice for each model |
| MachineLearning.RunAllEach | port_risk/models/machine_learning.py:71-97 | if every model runs, the result lists every run in order; the passes are `RunOnes`, one per model in order |
| MachineLearning.RunAllTuned | port_risk/models/machine_learning.py:71-97 | all models run, keyed as given; tuned names get their params, the others their defaults |
| MachineLearning.MainRun | port_risk/models/models.py:139-147 | with params for extra_trees and random_forest, all five registry models run, and gradient boosting keeps its defaults (18, 50) |
| MachineLearning.RegistryNames | port_risk/models/models.py:139-147 | the registry keys are the five names as spelled, distinct |
| Latex.MakeStatsTable | port_risk/io/latex.py:75-106 | the loop and the concatenation build the statistics table text |
| Latex.MetricsTable | port_risk/io/latex.py:125-150 | fails exactly when there are no models, with IndexError |
| Latex.MakeMetricsTable | port_risk/io/latex.py:113-150 | the loop and the concatenation build the metrics table text from the models' metrics |
| Latex.FormatNameSpaces | port_risk/io/latex.py:55 | the name title-cased with each "_" turned into a space: same length, no "_" |
| Latex.FormatNameKeeps | port_risk/io/latex.py:55 | an uncased character other than "_" and space appears in the result iff it appears in the name |
| Latex.FormatHeaderCase | port_risk/io/latex.py:71-72 | two headers are equal iff the strings agree once upper-cased; `Strings.Upper` keeps the length |
| Latex.MetricsHeaderBold | port_risk/io/latex.py:125-129 | each metric key appears in the header line as \textbf{KEY} in upper case; the header cells are `Headers` |
| Latex.TextbfTitled | port_risk/io/latex.py:129 | title-casing turns "\textbf{" into "\Textbf{" |
| Latex.HeaderTitleBreaks | port_risk/io/latex.py:126-129 | every formatted header starts with \textbf{, and title-casing it gives \Textbf{ |
| Latex.AsWrittenHeaderBroken | port_risk/io/latex.py:129 | the header line as written holds each cell title-cased, starting \Textbf{ |
| Latex.DataNewlines | port_risk/io/latex.py:91-94 | the data block of n newline-free lines holds n + 1 newlines |
| Latex.DocumentNewlines | port_risk/io/latex.py:96-106 | the frame adds three newlines to those of the data block |
| Latex.TableNewlines | port_risk/io/latex.py:96-106 | a table of n newline-free lines holds n + 4 newlines |
| Latex.StatsTableLines | port_risk/io/latex.py:75-106 | the statistics table has one line per entry plus four; the data lines are `StatsLines`, one per entry in order; the column spec `TabularSpec` adds no line |
| Latex.MetricsTableLines | port_risk/io/latex.py:113-150 | the metrics table has one line per model plus four; the data lines are `MetricsLines`, one per model of `MetricsOf` in order; the column spec `TabularSpec` adds no line |
| Latex.MetricsHeaderColumns | port_risk/io/latex.py:129 | the header line has one "&" per metric |
| Latex.MetricsLineColumns | port_risk/io/latex.py:134-138 | a model line has one "&" per metric; the number cells are `Formatted`, one per metric value |
| Latex.MetricsColumnsAlign | port_risk/io/latex.py:125-138 | a model with as many metrics as the first has as many cells as the header |
| Latex.StatsHeaderCells | port_risk/io/latex.py:90 | the header has three cells: Distribution, then the title-cased p-value and statistic column names |
| Latex.StatsLineCells | port_risk/io/latex.py:94 | a line's cells are the title-cased name, the p-value, then the statistic |
| Strings.UpperKeepsUncased | port_risk/io/latex.py:71 | `str.upper` leaves uncased characters alone: an uncased character occurs in the upper-cased string iff it occurs in the original |
| Strings.TitleAt | port_risk/io/latex.py:55 | `str.title`: a character after a cased one is lowered, any other raised |
| Strings.TitleJoin | port_risk/io/latex.py:55 | title-casing pieces and joining with an uncased separator equals title-casing the join |
| Strings.JoinSplitReplace | port_risk/io/latex.py:55 | splitting on one character and joining with another replaces the one by the other |
| Strings.SplitPair | port_risk/models/risk.py:177-183 | splitting a + sep + b, where neither contains sep, gives [a, b] |
| Strings.SortedDistinct | port_risk/preprocessing/merge.py:29 | the unstacked column labels are strictly sorted and are exactly the hazards present |
| Dicts.PivotGrid | port_risk/models/models.py:193-199 | regrouping a depth-by-metric grid gives the metric-by-depth grid |

## Left out

- Fitting, prediction, metrics and `oob_score_` are scikit-learn. They are the fields of an opaque `Learner`, so the model states which data each is applied to but not what it returns.
- Randomness is left out (bootstrap sampling, the data split in `preprocessing/machine_learning.py`).
- The row order of pandas `groupby` (sorted keys) and `reset_index` is not modelled. Group tables list keys in first-occurrence order, and the lemmas state membership and values, not row positions.
- Floating point is modelled as `real`. Risk.Blend returns `Float.NaN` whenever imports plus exports is 0. For the non-negative volumes the pipeline produces this is the 0/0 of risk.py:170-175. With negative volumes that cancel, pandas would give +inf or -inf instead; the model does not tell these apart from NaN.
- Risk.ComputeTradeRisk requires every row's `q_sea_flow_total` and `v_sea_flow_total` to be non-zero. This is the division at risk.py:42-47, where pandas would produce inf or NaN.
- `print` output in every function (including `print(headers)` in `make_metrics_table`) and `Model.print_metrics` are left out.
- The file writes of `make_stats_table` and `make_metrics_table` are left out. The methods return the text they would write.
- `format_float` and `format_scientific` are left out: the float formatter is the parameter `fmt`.
- The text of exception messages is not modelled. Errors carry their Python class and, where useful, the key.
- The empty tuple briefly stored under a name in `oob_erros_trees` (line 256) is left out; it is overwritten or the function raises.
- `self.depth` on the ensemble classes is never read and is left out.
- The sweeps' default bounds are the constants `Models.DefaultMaxDepth` and `Models.DefaultMaxEstimators`. Dafny has no default arguments, so `Models.OptimalDepthTrees` and `Models.OobErrorsTrees` take the bound as a parameter.
- Models.Model.ComputeMetrics requires that predictions exist. In the source, calling it before predicting passes `None` to scikit-learn, which raises.
- MachineLearning.RunAllModels requires distinct model names. The source takes them from a Python dict, whose keys are distinct.
- The line and column lemmas of `Latex` assume names and formatted numbers free of newlines and `&`. LaTeX escaping is not modelled.
- Latex.MakeMetricsTable uses the corrected header line (see Findings). `Latex.MetricsHeaderAsWritten` keeps the line as written.
- Geometry is an opaque string.
- Strings.Upper and Strings.Title treat only the ASCII letters as cased. Python's `str.upper` and `str.title` also case other Unicode letters and may change the length (`"ß".upper()` is `"SS"`). Every name the core formats is ASCII.
- `port_risk/preprocessing/statistics.py`, `port_risk/preprocessing/machine_learning.py`, the plotting and data-loading modules, `main.py` orchestration and the CLI are not part of this model. From `main.py` only the `models_to_test` dict (lines 130-134) and the two sweep calls with their default bounds (lines 136-139) appear, in `MachineLearning.MainOob` and `MachineLearning.MainValidation`.

## Findings

| source | as written | input that shows it | evidently intended | confidence | as-written member | corrected member |
|---|---|---|---|---|---|---|
| port_risk/models/risk.py:158 | the export port count is renamed `n_ports_import`, the same name as the import count | any call of `merge_risk` | `n_ports_export` | high; not executed | Risk.PortCountNamesCollide | Risk.GlobalColumnsDistinct |
| port_risk/io/latex.py:129 | `str.title` is applied to headers that `format_header` already made bold and upper-case | metric key `mse`: the cell becomes `\Textbf{Mse}`, an undefined LaTeX command | `\textbf{MSE}`, the header as formatted | high; not executed | Latex.AsWrittenHeaderBroken | Latex.MetricsHeaderBold |
