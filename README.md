# logpilot decision logic in Dafny

This project models the deterministic decision and bookkeeping code of logpilot, a
construction-site analytics system. The pickled ML models, pandas and the language-model
client around that code are not modelled. Five source files are covered, each by one
module:

- `Safety` (safety.dfy) is the rule-based daily safety alert of
  `safety/safety_dashboard.py`. It covers:
  - the heat-index and worker-density features;
  - the three-indicator strict threshold rule, with its parallel trigger and
    recommendation lists;
  - the default thresholds;
  - the row loop of `batch_predict`;
  - the branches of the alert report.

  `SafetyAlertSystem` is a class whose `thresholds`/`performance` fields are set when
  the configuration is loaded.
- `Overrun` (overrun.dfy) is the code of `models/overrun_api.py` around the two overrun
  classifiers. It covers:
  - loading the model files in order;
  - feature-schema validation and reordering;
  - result shaping;
  - the recommendation ladder;
  - the weighted overall-risk level;
  - ranking by confidence with consecutive ranks and `head(top_k)`;
  - feature importances;
  - alert-format dispatch.

  `OverrunPredictor` is a class whose `loaded` field stands for `models_loaded` together
  with the model fields.
- `WhatIf` (what_if.dfy) is the scenario builder and the quantile-forecast mapping of
  `sim/what_if.py`.
- `Kpis` (kpis.dfy) is the data-health index of `kpis/etl_kpis.py`. It is a
  0.40/0.30/0.15/0.15 weighted sum of the missingness, outlier, timestamp-gap and
  improbable-value sub-scores. The module also covers the derived KPIs of
  `compute_project_kpis`:
  - energy per worker;
  - progress velocity;
  - resource utilisation;
  - cost efficiency and schedule adherence.
- `OpsNotes` (ops_notes.dfy) is the weekly operations-notes generator of
  `ops_notes/generator.py`. It covers:
  - the time-overrun, safety and drift collectors, including counts, listings, the
    week-overlap filter with its cap of ten, and the trigger-frequency dictionary;
  - the scorecard health labels;
  - prompt filling and the fallback narrative.

Two modules are shared:

- `Common` (common.dfy) holds `Option`/`Result`, the Python exceptions as an `Error`
  datatype, and small sequence helpers.
- `Sorting` (sorting.dfy) holds the stable descending sort by key that stands for
  `sort_values(..., ascending=False)` and `sorted(..., reverse=True)`. It is proved
  sorted and a permutation.

All numbers are `real`. A raised exception is an `Err` result. The models are function
values handed in as parameters or fields:

- the scaler and the classifiers;
- the three quantile regressors;
- the language model.

A file that is read is a parameter. Its absence is `None`.

## Model

| member | source | states |
|---|---|---|
| Safety.HeatIndexDryAir | safety/safety_dashboard.py:69 | at humidity 0 the heat index is the temperature |
| Safety.HeatIndexAtFourteen | safety/safety_dashboard.py:69 | at 14 degrees the heat index is 14 for any humidity |
| Safety.HeatIndexAtLeastTemperature | safety/safety_dashboard.py:69 | for humidity in [0, 100] and temperature >= 14 the heat index is at least the temperature and at most temperature + 0.5555 (temperature - 14) |
| Safety.DensityFallsWithUtilization | safety/safety_dashboard.py:84 | a non-negative utilisation keeps the denominator utilisation + 0.1 positive; for a positive crew the density strictly falls as utilisation rises |
| Safety.AssessHighIff | safety/safety_dashboard.py:102-143 | HIGH RISK exactly when vibration, heat index or density is strictly above its threshold, LOW RISK exactly when none is (a value equal to its threshold never triggers) |
| Safety.AssessTriggersExactly | safety/safety_dashboard.py:106-139 | an indicator is listed exactly when it is strictly above its threshold, with its reading and threshold |
| Safety.AssessListsParallel | safety/safety_dashboard.py:102-139 | triggers and recommendations have equal length, at most 3, each recommendation matches its trigger, and the order is vibration, heat, density |
| Safety.DailyRiskDecision | safety/safety_dashboard.py:145-191 | the prediction fails exactly on a zero density denominator; otherwise the level is decided on the unrounded heat index and density, while only the reported features are rounded |
| Safety.RowPredictionFallbacks | safety/safety_dashboard.py:205-221 | a row's utilisation is `equipment_utilization_rate`, else `equipment_utilization`, else 0.5; the date is the timestamp's date or "N/A"; a missing required column is a KeyError |
| Safety.AlertReport | safety/safety_dashboard.py:223-279 | the report fails exactly when a non-empty performance block lacks a metric; the alert body with numbered actions appears exactly at HIGH RISK; the performance block is "not available" exactly when performance is empty |
| Safety.SafetyAlertSystem.constructor | safety/safety_dashboard.py:32-56 | without a configuration file the thresholds are exactly 35.0 / 35.0 / 100.0 and performance is empty; otherwise both come from the file |
| Safety.SafetyAlertSystem.LoadThresholds | safety/safety_dashboard.py:42-56 | replaces thresholds and performance from the file, or installs the defaults |
| Safety.SafetyAlertSystem.CheckThresholds | safety/safety_dashboard.py:87-143 | the lists built by appending equal the rule's assessment, HIGH RISK exactly when an indicator is strictly above its threshold |
| Safety.SafetyAlertSystem.PredictDailyRisk | safety/safety_dashboard.py:145-191 | a ZeroDivisionError exactly when utilisation + 0.1 is 0; otherwise HIGH RISK exactly when vibration, the heat index or the density computed from the raw inputs is strictly above its threshold |
| Safety.SafetyAlertSystem.BatchPredict | safety/safety_dashboard.py:193-221 | succeeds exactly when every row does, then gives one prediction per row in input order; otherwise the error of the first failing row |
| Overrun.ParseTarget | models/overrun_api.py:318-319 | only 'time' and 'cost' are accepted; anything else is a ValueError |
| Overrun.LoadFrom | models/overrun_api.py:55-104 | loading succeeds exactly when all five files exist, and then holds exactly the five loaded objects; otherwise the first missing file in the order time model, cost model, time scaler, cost scaler, metadata gives the FileNotFoundError naming that file |
| Overrun.Select | models/overrun_api.py:132-133 | the expected columns in the expected order |
| Overrun.ValidateFeatures | models/overrun_api.py:106-133 | a ValueError exactly when some expected feature is missing; otherwise exactly the expected features in the expected order |
| Overrun.ValidateIgnoresExtras | models/overrun_api.py:117-133 | rows that agree on the expected features validate alike, so extra columns never matter |
| Overrun.Recommend | models/overrun_api.py:404-421 | prediction 0 always gives the low-risk advice; a non-zero prediction without a confidence is a TypeError; otherwise TIME gives HIGH exactly at confidence >= 0.8, MEDIUM exactly in [0.6, 0.8) and ELEVATED exactly below 0.6, and COST gives ELEVATED exactly at >= 0.7 and POTENTIAL exactly below |
| Overrun.RecommendBoundaries | models/overrun_api.py:410-421 | the cut points 0.8 and 0.6 (time) and 0.7 (cost) are inclusive: a confidence exactly at a cut takes the higher rung (the rungs on either side are stated by Overrun.Recommend) |
| Overrun.RecommendMonotone | models/overrun_api.py:410-421 | a higher confidence never gives less urgent advice |
| Overrun.StatusOf | models/overrun_api.py:187 | the time model is the production model, the cost model is not |
| Overrun.ProjectIdOr | models/overrun_api.py:181 | a missing or empty project id becomes 'unknown', any other is kept |
| Overrun.Predict | models/overrun_api.py:135-259 | validation errors are raised; the prediction is the target's classifier applied to the target's scaler on the validated features, and the confidence is that classifier's class-1 probability, present exactly with `return_proba`; the label is OVERRUN exactly when the prediction is 1; the status is the target's (production for TIME, experimental for COST); the recommendation is the ladder's; after validation, the call succeeds exactly when `return_proba` is set or the prediction is 0, and otherwise fails with TypeError |
| Overrun.OverallRisk | models/overrun_api.py:423-436 | HIGH exactly when 0.7 time + 0.3 cost >= 0.7 and LOW exactly when it is below 0.5 |
| Overrun.OverallRiskMonotone | models/overrun_api.py:425-436 | raising either confidence never lowers the level |
| Overrun.OverallRiskMissingIsZero | models/overrun_api.py:425-426 | a missing confidence counts as 0 |
| Overrun.OverallRiskBetween | models/overrun_api.py:425-436 | two confidences both at least 0.7 give HIGH; both below 0.5 give LOW |
| Overrun.WithRanks | models/overrun_api.py:332 | ranks run consecutively from the first number, one per row |
| Overrun.Projects | models/overrun_api.py:330-336 | the project entries of the ranked rows, one per row |
| Overrun.RankScoredKept | models/overrun_api.py:330-336 | ranking fails exactly on an empty list; otherwise it numbers from 1 the rows kept by `head(top_k)` after the sort |
| Overrun.ProjectsOfRanks | models/overrun_api.py:332 | numbering does not alter the projects |
| Overrun.RankOrder | models/overrun_api.py:330-336 | the output runs by descending confidence with ranks 1, 2, 3, ... |
| Overrun.RankedProjectsAreKept | models/overrun_api.py:330-336 | the ranked projects are exactly those kept after sorting and truncation |
| Overrun.RankCount | models/overrun_api.py:335-336 | `head(top_k)` rows with `top_k`, every project without it |
| Overrun.RankMembers | models/overrun_api.py:330-336 | only scored projects appear, all of them without `top_k`, and none of those cut is more confident than one kept |
| Overrun.Zip | models/overrun_api.py:388-390 | features paired with importances, truncated to the shorter list |
| Overrun.ImportanceOf | models/overrun_api.py:378-385 | absolute coefficients for a linear model (non-negative), tree importances otherwise, an error for any other estimator |
| Overrun.TopImportancesSpec | models/overrun_api.py:388-399 | at most `top_n` pairs, sorted by descending importance, drawn from the zipped pairs |
| Overrun.BaseModelNames | models/overrun_api.py:369 | the names `base_model_0` ... `base_model_{n-1}`, one per base estimator, in order |
| Overrun.ImportanceSource | models/overrun_api.py:355-373 | COST uses the cost model's own estimator (a model exposing neither attribute is unsupported) with the cost features; TIME uses the first base estimator with the time features, falls back to `final_estimator_` with the base-model names when `estimators_` is empty, and fails on a model without `final_estimator_` |
| Overrun.GenerateAlert | models/overrun_api.py:438-456 | only text, markdown and html are accepted, anything else is a ValueError; the HTML frame is red exactly for an overrun |
| Overrun.Score | models/overrun_api.py:310-327 | one project of the ranking loop: a missing `features` entry is a KeyError, a missing `project_id` becomes `project_<position>`, then the target error, then the not-loaded RuntimeError; with models loaded it succeeds exactly when the prediction with probabilities does and otherwise raises that prediction's error; a success carries the prediction's confidence and label |
| Overrun.OverrunPredictor.Init | models/overrun_api.py:35-53 | the fields as set before loading: nothing loaded |
| Overrun.OverrunPredictor.LoadModels | models/overrun_api.py:55-104 | on success all models are installed; on a missing file `loaded` keeps its old value and the error is returned |
| Overrun.OverrunPredictor.Open | models/overrun_api.py:35-53 | construction fails exactly when loading does; otherwise a fresh predictor with the models loaded |
| Overrun.OverrunPredictor.PredictOverrun | models/overrun_api.py:135-259 | refused with RuntimeError while no models are loaded; otherwise the loaded models' prediction |
| Overrun.OverrunPredictor.PredictBoth | models/overrun_api.py:261-289 | a TIME failure is raised first, then a COST failure; on success the two components are exactly the TIME and COST predictions with probabilities, the id is `project_id or 'unknown'`, and the overall level is that of the two confidences |
| Overrun.OverrunPredictor.RankProjects | models/overrun_api.py:291-342 | the first failing project's error, else the scored projects ranked by descending confidence |
| Overrun.OverrunPredictor.FeatureImportance | models/overrun_api.py:344-402 | an unknown target is a ValueError; without models TIME gives AttributeError and COST TypeError; with models it succeeds exactly when an estimator is chosen and supports importances, and otherwise raises the error of the failing step; a result is sorted by descending importance and is the top pairs of the chosen estimator |
| WhatIf.BuildScenario | sim/what_if.py:5-31 | a KeyError for a missing worker count or utilisation; otherwise the same keys, worker count plus the delta, utilisation times the multiplier, every other field unchanged |
| WhatIf.BuildScenarioDefaults | sim/what_if.py:6-7 | with delta 0 and multiplier 1.0 the scenario is the baseline |
| WhatIf.BuildScenarioComposes | sim/what_if.py:26-27 | two scenarios in a row are one scenario with the deltas added and the multipliers multiplied |
| WhatIf.PredictScenario | sim/what_if.py:33-47 | the point is the median model's output, the lower bound the low model's and the upper bound the high model's |
| WhatIf.ForecastMayBeInverted | sim/what_if.py:39-47 | no reordering: models that disagree give a lower bound above the point |
| WhatIf.WhatIfApi | sim/what_if.py:49-82 | the first missing model file, in the order p10, p50, p90, is the FileNotFoundError naming it; then a scenario error is raised; otherwise the estimate is the p50 output and the interval (p10 output, p90 output) |
| Kpis.CountOutside | kpis/etl_kpis.py:51 | no more out-of-range cells than cells |
| Kpis.ColumnNamed | kpis/etl_kpis.py:60 | a column is found exactly when one has the name |
| Kpis.MissingCellsBound | kpis/etl_kpis.py:33-34 | missing cells are at most rows times columns |
| Kpis.RatioBounds | kpis/etl_kpis.py:35 | a ratio of a part to a positive whole lies in [0, 1] |
| Kpis.MissingnessBounds | kpis/etl_kpis.py:33-36 | the missingness score is defined exactly for a frame with cells, and then lies in [0, 100] |
| Kpis.OutlierRatios | kpis/etl_kpis.py:40-53 | each per-column outlier ratio lies in [0, 1] |
| Kpis.MeanOfFractions | kpis/etl_kpis.py:55-56 | the mean of fractions, 0 for none, lies in [0, 1] |
| Kpis.RangeCheck | kpis/etl_kpis.py:78-92 | a range check adds no more improbable cells than checks |
| Kpis.Improbable | kpis/etl_kpis.py:75-97 | over temperature in [-50, 60], humidity and task progress in [0, 100], improbable cells never exceed checks |
| Kpis.SubScoreBounds | kpis/etl_kpis.py:40-99 | outlier, gap and improbable sub-scores lie in [0, 100] |
| Kpis.SubScoreDefaults | kpis/etl_kpis.py:40-99 | no numeric column with values gives an outlier score of 100, no `timestamp` column a gap score of 100, and no temperature, humidity or task progress column an improbable-value score of 100 |
| Kpis.DataHealthBounds | kpis/etl_kpis.py:21-104 | the index is NaN exactly for a frame without cells and otherwise lies in [0, 100] |
| Kpis.DataHealthPerfectIff | kpis/etl_kpis.py:102 | the index is 100 exactly when all four sub-scores are |
| Kpis.CountImprobable | kpis/etl_kpis.py:75-92 | the accumulated improbable count and checks are those of the three range checks, the count never above the checks |
| Kpis.CalculateDataHealth | kpis/etl_kpis.py:21-104 | the loop-built index equals the weighted sum and lies in [0, 100] |
| Kpis.RequireTimestamp | kpis/etl_kpis.py:136-137 | a ValueError exactly when there is no `timestamp` column |
| Kpis.DropColumn | kpis/etl_kpis.py:144 | a column remains exactly when it was there and has another name; a frame without that name is unchanged |
| Kpis.IndexedByTimestamp | kpis/etl_kpis.py:144 | after `set_index` the frame has no `timestamp` column, the same rows and gaps, and every other column |
| Kpis.AsWrittenIgnoresGaps | kpis/etl_kpis.py:144 | as written, every period's gap sub-score is 100 |
| Kpis.AsWrittenMissesGap | kpis/etl_kpis.py:144-213 | as written, a period stamped at hours 0, 1, 2, 9 (one difference above twice the median) scores 100 on gaps and 100 overall, which differs from its health with the timestamp kept |
| Kpis.GapExampleHealth | kpis/etl_kpis.py:21-104 | with its timestamp, the same period scores 75 on gaps and 96.25 overall |
| Kpis.GapScoreSeesGaps | kpis/etl_kpis.py:60-72 | with the timestamp present the gap score is below 100 exactly when there is a large gap |
| Kpis.PeriodHealth | kpis/etl_kpis.py:200-216 | one score per period, NaN for an empty period, each in [0, 100] |
| Kpis.EnergyPerWorker | kpis/etl_kpis.py:166 | defined exactly when the worker count plus one is non-zero |
| Kpis.EnergyPerWorkerBounded | kpis/etl_kpis.py:166 | for a non-negative worker count the value is defined and lies between 0 and the energy |
| Kpis.ProgressVelocity | kpis/etl_kpis.py:197-198 | one value per period, first progress plus velocity equals last progress |
| Kpis.ResourceUtilization | kpis/etl_kpis.py:220-224 | one value per period, defined exactly when the largest worker intensity is non-zero |
| Kpis.ResourceUtilizationBounds | kpis/etl_kpis.py:220-224 | utilisation in [0, 100] and positive intensities give values in [0, 100] |
| Kpis.RelativeFacts | kpis/etl_kpis.py:229-235 | a relative score lies in [0, 100], is 0 at the largest deviation, and a smaller deviation scores no lower |
| Kpis.InverseScore | kpis/etl_kpis.py:229-243 | one score per period |
| Kpis.InverseScoreAt | kpis/etl_kpis.py:229-235 | each score is 100 - 100 |d| / max |d|, or 100 when max |d| is 0 |
| Kpis.InverseScoreBounds | kpis/etl_kpis.py:229-243 | every score lies in [0, 100] |
| Kpis.InverseScoreWorstIsZero | kpis/etl_kpis.py:229-243 | the period with the largest non-zero deviation scores 0 |
| Kpis.InverseScoreAllZero | kpis/etl_kpis.py:233-235 | with no deviation anywhere every period scores 100 |
| Kpis.InverseScoreOrder | kpis/etl_kpis.py:229-243 | a smaller deviation never scores lower |
| Sorting.SortDescSorted | ops_notes/generator.py:124 | the sort gives descending keys |
| Sorting.SortDescPermutes | ops_notes/generator.py:124 | the sort is a permutation of its input |
| OpsNotes.TimeEntry | ops_notes/generator.py:115-121 | a missing `features`, then a missing `project_id`, is a KeyError; without models a RuntimeError; with both keys and models it is exactly the TIME prediction with probabilities for that project |
| OpsNotes.TimeCounts | ops_notes/generator.py:124-131 | overrun and no-overrun counts add up to the projects, the second counting every prediction other than 1, with one high-risk entry per overrun |
| OpsNotes.TimeHighRiskListing | ops_notes/generator.py:124-146 | the high-risk list gives every overrun project with its 1-based place in the descending-confidence order, in that order |
| OpsNotes.TimeLowerRiskListing | ops_notes/generator.py:152-157 | the lower-risk list holds exactly the projects predicted 0, by descending confidence |
| OpsNotes.BreakdownSpec | ops_notes/generator.py:233-241 | the breakdown is sorted by count, lists every key once with its number of occurrences, and its counts add up to the keys |
| OpsNotes.TriggerKeysCount | ops_notes/generator.py:233-241 | the breakdown's counts add up to the triggers over the high-risk days |
| OpsNotes.CountTriggers | ops_notes/generator.py:235-238 | counting one day's triggers into the dictionary is counting its keys after the earlier ones |
| OpsNotes.TallyTriggers | ops_notes/generator.py:233-240 | the nested loop and sort give the breakdown of all keys of the days |
| OpsNotes.FactorBreakdownCountsDays | ops_notes/generator.py:231-242 | counted by indicator, each count is the number of days on which it fired, positive, and every indicator that fired is listed |
| OpsNotes.AsWrittenSplitsFactor | ops_notes/generator.py:237-238 | as written, two days with vibration readings 45.3 and 38.3 give two entries of one day; by indicator they give one entry of two days |
| OpsNotes.RowPredictionFactorsDistinct | safety/safety_dashboard.py:102-139 | a day's triggers name each indicator at most once |
| OpsNotes.SafetyCounts | ops_notes/generator.py:195-241 | high-risk days are exactly the HIGH RISK predictions, high- and low-risk days add up to the days, and the breakdown adds up to the high-risk days' triggers |
| OpsNotes.SafetyBreakdownCountsDays | ops_notes/generator.py:192-242 | on the week's predictions each breakdown count is the number of high-risk days on which the indicator fired |
| OpsNotes.WeekPredictions | ops_notes/generator.py:192 | `batch_predict` on the week's rows is the day-by-day prediction of the week |
| OpsNotes.DriftSelection | ops_notes/generator.py:348-355 | an alert is kept exactly when it overlaps the closed week; without an end, exactly when its start is in the week |
| OpsNotes.DriftCap | ops_notes/generator.py:369-380 | at most ten alerts listed, numbered from 1; "... and N more" exactly beyond ten, with N the rest |
| OpsNotes.DailyScorecardHealth | ops_notes/generator.py:463 | Good from 80, Concerning from 60, Critical below, boundaries inclusive |
| OpsNotes.ResultsScorecardHealth | ops_notes/generator.py:490 | Good from 70, Concerning from 50, Critical below, boundaries inclusive |
| OpsNotes.HealthLabelMonotone | ops_notes/generator.py:463-490 | a higher average never gets a worse label |
| OpsNotes.FillPromptDefaults | ops_notes/generator.py:539-545 | empty KPI, drift and scorecard summaries become their "No ... data available" notice, others pass unchanged |
| OpsNotes.FallbackSectionsSpec | ops_notes/generator.py:572-585 | sections run KPI, time, drift, safety, scorecard, each with its own summary; time and safety always, the others exactly when non-empty |
| OpsNotes.ListHighRisk | ops_notes/generator.py:138-146 | the loop keeps the numbered overrun entries |
| OpsNotes.ListLowerRisk | ops_notes/generator.py:152-157 | the loop keeps the projects predicted 0 |
| OpsNotes.SelectWeekAlerts | ops_notes/generator.py:348-355 | the loop keeps exactly the alerts overlapping the week, in file order |
| OpsNotes.NumberFrom | ops_notes/generator.py:369 | the loop numbers the alerts from the first number |
| OpsNotes.WeeklyOpsNotesGenerator.constructor | ops_notes/generator.py:58-91 | the generator holds the predictor, the safety system and the language model it is given |
| OpsNotes.WeeklyOpsNotesGenerator.CollectTimeOverrunData | ops_notes/generator.py:93-159 | no projects gives the notice without predicting; otherwise the first failure, or the counts and listings of the predictions |
| OpsNotes.WeeklyOpsNotesGenerator.CollectSafetyData | ops_notes/generator.py:161-244 | no rows in the closed week gives the notice; otherwise the batch error, or the day counts, high-risk days and breakdown by indicator |
| OpsNotes.WeeklyOpsNotesGenerator.CollectDriftData | ops_notes/generator.py:315-388 | a missing file gives its notice; otherwise the week's alerts, the first ten listed |
| OpsNotes.WeeklyOpsNotesGenerator.FallbackNarrative | ops_notes/generator.py:561-595 | the appended sections joined between the fixed header and note |
| OpsNotes.WeeklyOpsNotesGenerator.GenerateNarrative | ops_notes/generator.py:515-559 | the model's text for the filled prompt, or the fallback narrative when the call fails |

## Left out

- Model inference is not modelled: unpickling, `scaler.transform`, `predict` and
  `predict_proba`, and the quantile regressors. These are function values in the model.
  A corrupted pickle (the RuntimeError path of `_load_models`) is not modelled.
  Only a missing file is.
- Reading the configuration, the model files, `prompt.txt` and the drift-alert JSON is
  not modelled. Their parsed contents are parameters, and a missing file is `None`. JSON
  parse errors and unparseable dates, which end in the drift collector's `except` branch,
  are not modelled.
- The language-model client and its `.env` set-up are not modelled. The model is a
  function that returns `None` when the call raises.
- Wall-clock timestamps (`datetime.now`) and report-file writing are not modelled, and
  neither is `generate_weekly_report`.
- `collect_kpi_data` is not modelled. Of `collect_scorecard_data`, only the two health
  labels are modelled. Both are data-file readers with formatting.
- Rendering of summaries and reports as text is not modelled. This covers emoji, banner
  lines, `:.1f`/`:.2%` formatting and `confidence_pct`. Summaries are the values that
  their lines show.
- `round(...)` is kept as a value and the digits it is given. No rounding arithmetic is
  done.
- Pandas machinery is not modelled: `resample`, `agg_dict`, `quantile`, the median of
  timestamp differences, `fillna(0)` and datetime parsing. The number of large gaps and
  the outlier fences of each column are given as inputs. Duplicate column names are not
  modelled.
- The `elif` branch of `resource_utilization` is left out. It copies the mean
  utilisation. `progress_pct` is also left out, since it copies the last progress.
- Sorting: `sort_values` uses quicksort, which is not stable; the model sorts stably,
  breaking ties by input order. The equality contracts of
  Overrun.OverrunPredictor.RankProjects, Overrun.RankScoredKept,
  Overrun.RankedProjectsAreKept and Overrun.OverrunPredictor.FeatureImportance
  describe that one order, including which tied rows survive `head(k)`; for pandas
  they hold only up to the order of equal confidences or importances. Overrun.RankOrder,
  Overrun.RankMembers and Overrun.TopImportancesSpec hold for any order of ties.
- Overrun.ImportanceSource: the metadata is taken to hold both feature lists, so the
  fallback to the meta-learner taken when `time_features` is missing (a KeyError inside
  the `try`) is not modelled; only the fallback for an empty `estimators_` is.
- OpsNotes.AlertStart: a `start_time`, `timestamp`, `date` or `end_time` key that is
  present but empty or null is modelled like a missing key. In the source a present
  empty string parses to NaT and drops the alert without looking at the next key, and a
  present null raises TypeError into the drift collector's `except` branch.
- Safety.SafetyAlertSystem.LoadThresholds: configuration thresholds are taken as
  well-formed. A file without all three keys would raise KeyError later.
- OpsNotes.TimeEntry: a `project_id` key present with the value None cannot be expressed.
  The model treats it as a missing key and raises KeyError('project_id'). The source passes
  None on, so the result's id becomes 'unknown'; in `rank_projects` the id would stay None.
- Overrun.OverrunPredictor.LoadModels: the source assigns each model as it is read, so a
  file missing after the first leaves the earlier fields overwritten. The model keeps the
  old `loaded` value as a whole, which differs only when `_load_models` runs again on a
  predictor that already holds models.
- Overrun.ProjectIdOr: an explicitly empty identifier is modelled like a missing one.
  Other falsy values Python would also replace are not modelled.
- Overrun.OverrunPredictor.RankProjects: the target is parsed once, before the loop.
  The loop checks `features`, then `project_id`, then the target for each project, so
  the same error is raised first. For an empty list no target check is reached, as in
  the source.
- OpsNotes.TriggerText: the trigger text is keyed by the whole trigger. Two readings that
  render to the same rounded text would merge in the source but stay apart here.
- OpsNotes.WeeklyOpsNotesGenerator.CollectSafetyData: the in-place conversion of
  `daily_data['date']` is not modelled. Dates are already instants. The closed filter
  bound `week_end` is an instant as given, so its time of day is not modelled. The loop
  that strips each high-risk day's recommendation lines and drops blank ones is not
  modelled either.
- OpsNotes.WeeklyOpsNotesGenerator.GenerateNarrative: `prompt.format` raising KeyError
  on a template with other placeholders is not modelled.
- OpsNotes.WeeklyOpsNotesGenerator.constructor: the client set-up and the template read
  are not modelled. The predictor, the safety system and the model are taken as
  parameters.

## Findings

| source | as written | input that shows it | evidently intended | confidence | as-written member | corrected member |
|---|---|---|---|---|---|---|
| kpis/etl_kpis.py:144 | `set_index('timestamp', inplace=True)` runs before the per-period health loop (lines 208-210). The period frames therefore have no `timestamp` column, and the gap sub-score (lines 60-70) is 100 for every period. | A period of four rows stamped at hours 0, 1, 2 and 9 with a constant `worker_count` column. The differences are 1, 1 and 7, the median is 1, so there is one large gap. As written the gap sub-score is 100 and the index 100; with the timestamp the gap sub-score is 75 and the index 96.25. | The per-period data-health index penalises timestamp gaps. | not executed | Kpis.AsWrittenMissesGap | Kpis.GapScoreSeesGaps |
| ops_notes/generator.py:237-238 | `trigger.split(']')[0]` is meant to cut the trigger text down to the indicator's name. The trigger text contains no `]`, so each distinct reading becomes its own key. | Two high-risk days on which vibration fired, with readings 45.3 and 38.3: as written they give two entries of "1 day(s)". | One entry per indicator, counting the days on which it fired (here vibration, 2 days). | not executed | OpsNotes.AsWrittenSplitsFactor | OpsNotes.FactorBreakdownCountsDays |

`Kpis.PeriodHealth` scores each period with its timestamp kept. `Kpis.PeriodHealthAsWritten`
scores it the way the source does. `OpsNotes.WeeklyOpsNotesGenerator.CollectSafetyData`
counts the breakdown by indicator.
