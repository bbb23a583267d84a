/** The decision and bookkeeping code of models/overrun_api.py around two pickled
    classifiers: feature-schema validation, result shaping, the recommendation ladder, the
    weighted overall risk, ranking by confidence, feature importance and alert dispatch.
    The fitted scalers and classifiers are opaque functions carried in the `Models` value. */
module Overrun {
  import opened Common
  import opened Sorting

  /** Which overrun a call is about. */
  datatype Target = TimeTarget | CostTarget

  /** The public `target` argument: only 'time' and 'cost' are accepted. */
  function ParseTarget(name: string): (r: Result<Target>)
    ensures r.Ok? <==> name == "time" || name == "cost"
    ensures r.Ok? ==> (r.value == TimeTarget <==> name == "time")
    ensures r.Err? ==> r.error.ValueError?
  {
    if name == "time" then Ok(TimeTarget)
    else if name == "cost" then Ok(CostTarget)
    else Err(ValueError("target must be 'time' or 'cost'"))
  }

  /** One project's metrics: column name to value (a one-row frame or a dict). */
  type FeatureRow = map<string, real>

  /** The contents of `model_metadata.pkl` that the code reads. */
  datatype Metadata = Metadata(timeFeatures: seq<string>, costFeatures: seq<string>)

  /** What an estimator exposes for interpretability: `coef_` (its first row), or
      `feature_importances_`, or neither. */
  datatype Estimator = Linear(coef: seq<real>) | Trees(importances: seq<real>) | Unsupported

  /** The shape of a fitted classifier: a stacking ensemble (`estimators_`,
      `final_estimator_`) or a single estimator such as the logistic regression. */
  datatype Shape = Stacking(estimators: seq<Estimator>, finalEstimator: Estimator) | Single(estimator: Estimator)

  /** A fitted classifier: its class label and its class-1 probability for one scaled row. */
  datatype Classifier = Classifier(predict: seq<real> -> int, probability: seq<real> -> real, shape: Shape)

  /** A fitted `StandardScaler.transform` on one row. */
  type Scaler = seq<real> -> seq<real>

  /** Everything `_load_models` reads from disk. */
  datatype Models = Models(
    timeModel: Classifier, costModel: Classifier, timeScaler: Scaler, costScaler: Scaler, metadata: Metadata)

  /** The five pickle files of the model directory; `None` when a file does not exist. */
  datatype ModelFiles = ModelFiles(
    timeModel: Option<Classifier>, costModel: Option<Classifier>, timeScaler: Option<Scaler>,
    costScaler: Option<Scaler>, metadata: Option<Metadata>)

  /** `_load_models`: the files are opened in a fixed order and the first missing one aborts
      the load with FileNotFoundError. */
  function LoadFrom(dir: string, files: ModelFiles): (r: Result<Models>)
    ensures r.Ok? <==> (files.timeModel.Some? && files.costModel.Some? && files.timeScaler.Some? &&
      files.costScaler.Some? && files.metadata.Some?)
    ensures r.Ok? ==> r.value == Models(files.timeModel.value, files.costModel.value, files.timeScaler.value,
                                        files.costScaler.value, files.metadata.value)
    ensures files.timeModel.None? ==> r == Err(FileNotFoundError(dir + "/time_stacking_model.pkl"))
    ensures files.timeModel.Some? && files.costModel.None? ==> r == Err(FileNotFoundError(dir + "/cost_lr_model.pkl"))
    ensures files.timeModel.Some? && files.costModel.Some? && files.timeScaler.None? ==>
      r == Err(FileNotFoundError(dir + "/time_scaler.pkl"))
    ensures files.timeModel.Some? && files.costModel.Some? && files.timeScaler.Some? && files.costScaler.None? ==>
      r == Err(FileNotFoundError(dir + "/cost_scaler.pkl"))
    ensures (files.timeModel.Some? && files.costModel.Some? && files.timeScaler.Some? && files.costScaler.Some? &&
             files.metadata.None?) ==> r == Err(FileNotFoundError(dir + "/model_metadata.pkl"))
  {
    if files.timeModel.None? then Err(FileNotFoundError(dir + "/time_stacking_model.pkl"))
    else if files.costModel.None? then Err(FileNotFoundError(dir + "/cost_lr_model.pkl"))
    else if files.timeScaler.None? then Err(FileNotFoundError(dir + "/time_scaler.pkl"))
    else if files.costScaler.None? then Err(FileNotFoundError(dir + "/cost_scaler.pkl"))
    else if files.metadata.None? then Err(FileNotFoundError(dir + "/model_metadata.pkl"))
    else Ok(Models(files.timeModel.value, files.costModel.value, files.timeScaler.value,
                   files.costScaler.value, files.metadata.value))
  }

  /** The expected columns of `X[expected]`, in the expected order. */
  function Select(x: FeatureRow, expected: seq<string>): (r: seq<real>)
    requires forall i :: 0 <= i < |expected| ==> expected[i] in x
    ensures |r| == |expected|
    ensures forall i :: 0 <= i < |expected| ==> r[i] == x[expected[i]]
  {
    if expected == [] then [] else [x[expected[0]]] + Select(x, expected[1..])
  }

  /** `_validate_features`: every expected feature must be present; extra columns are ignored
      and the expected ones come back in the expected order. */
  function ValidateFeatures(x: FeatureRow, expected: seq<string>, target: Target): (r: Result<seq<real>>)
    ensures r.Err? <==> exists i :: 0 <= i < |expected| && expected[i] !in x
    ensures r.Err? ==> r.error.ValueError?
    ensures r.Ok? ==> |r.value| == |expected| && forall i :: 0 <= i < |expected| ==> r.value[i] == x[expected[i]]
  {
    if forall i :: 0 <= i < |expected| ==> expected[i] in x then Ok(Select(x, expected))
    else Err(ValueError(
      "Missing required features for " + (if target == TimeTarget then "TIME" else "COST") + " prediction"))
  }

  /** Two rows that agree on the expected features validate alike: extra columns never matter. */
  lemma ValidateIgnoresExtras(x: FeatureRow, y: FeatureRow, expected: seq<string>, target: Target)
    requires forall i :: 0 <= i < |expected| ==> (expected[i] in x <==> expected[i] in y)
    requires forall i :: 0 <= i < |expected| && expected[i] in x ==> x[expected[i]] == y[expected[i]]
    ensures ValidateFeatures(x, expected, target) == ValidateFeatures(y, expected, target)
  {
    var rx := ValidateFeatures(x, expected, target);
    var ry := ValidateFeatures(y, expected, target);
    if rx.Ok? {
      assert ry.Ok?;
      assert rx.value == ry.value;
    }
  }

  datatype Label = Overrun | NoOverrun

  /** The recommendation strings of `_get_recommendation`. */
  datatype Recommendation = LowRisk | TimeHigh | TimeMedium | TimeElevated | CostElevated | CostPotential
  {
    function Text(): string
    {
      match this
      case LowRisk => "\U{2705} Low risk - Continue monitoring"
      case TimeHigh => "\U{1F6A8} HIGH RISK - Immediate review required (100% Precision@1)"
      case TimeMedium => "\U{26A0}\U{FE0F}  MEDIUM RISK - Schedule review this week"
      case TimeElevated => "\U{26A0}\U{FE0F}  ELEVATED RISK - Monitor closely"
      case CostElevated => "\U{26A0}\U{FE0F}  ELEVATED RISK - Review with domain expert (experimental)"
      case CostPotential => "\U{26A0}\U{FE0F}  POTENTIAL RISK - Directional signal only (experimental)"
    }

    /** How urgent the advice is, from 0 (keep monitoring) up the ladder of its target. */
    function Urgency(): nat
    {
      match this
      case LowRisk => 0
      case TimeElevated => 1
      case TimeMedium => 2
      case TimeHigh => 3
      case CostPotential => 1
      case CostElevated => 2
    }
  }

  /** `_get_recommendation`. With `return_proba=False` the confidence is None, and comparing
      None with a number raises TypeError as soon as an overrun is predicted. */
  function Recommend(prediction: int, confidence: Option<real>, target: Target): (r: Result<Recommendation>)
    ensures prediction == 0 ==> r == Ok(LowRisk)
    ensures r.Err? <==> prediction != 0 && confidence.None?
    ensures r.Err? ==> r.error.TypeError?
    ensures r.Ok? && prediction != 0 ==> (r.value.Urgency() >= 1 &&
      (target == TimeTarget <==> r.value in {TimeHigh, TimeMedium, TimeElevated}))
    ensures r == Ok(TimeHigh) <==>
      prediction != 0 && confidence.Some? && target == TimeTarget && confidence.value >= 0.8
    ensures r == Ok(TimeMedium) <==>
      prediction != 0 && confidence.Some? && target == TimeTarget && 0.6 <= confidence.value < 0.8
    ensures r == Ok(TimeElevated) <==>
      prediction != 0 && confidence.Some? && target == TimeTarget && confidence.value < 0.6
    ensures r == Ok(CostElevated) <==>
      prediction != 0 && confidence.Some? && target == CostTarget && confidence.value >= 0.7
    ensures r == Ok(CostPotential) <==>
      prediction != 0 && confidence.Some? && target == CostTarget && confidence.value < 0.7
  {
    if prediction == 0 then Ok(LowRisk)
    else if confidence.None? then Err(TypeError("'>=' not supported between 'NoneType' and 'float'"))
    else match target
      case TimeTarget =>
        Ok(if confidence.value >= 0.8 then TimeHigh else if confidence.value >= 0.6 then TimeMedium else TimeElevated)
      case CostTarget =>
        Ok(if confidence.value >= 0.7 then CostElevated else CostPotential)
  }

  /** The ladder's cut points are inclusive: a confidence exactly at a boundary takes the
      higher step. */
  lemma RecommendBoundaries(prediction: int)
    requires prediction != 0
    ensures Recommend(prediction, Some(0.8), TimeTarget) == Ok(TimeHigh)
    ensures Recommend(prediction, Some(0.6), TimeTarget) == Ok(TimeMedium)
    ensures Recommend(prediction, Some(0.7), CostTarget) == Ok(CostElevated)
  {
  }

  /** A higher confidence never yields less urgent advice. */
  lemma RecommendMonotone(prediction: int, c1: real, c2: real, target: Target)
    requires c1 <= c2
    ensures Recommend(prediction, Some(c1), target).value.Urgency() <= Recommend(prediction, Some(c2), target).value.Urgency()
  {
  }

  /** The static `model_status` and `model_performance` entries of each target. */
  datatype ModelStatus =
    | Production(auc: real, precision: real, precisionAt1: real, precisionAt2: real)
    | Experimental(auc: real, note: string)

  function StatusOf(target: Target): (s: ModelStatus)
    ensures s.Production? <==> target == TimeTarget
  {
    if target == TimeTarget then Production(0.750, 1.00, 1.00, 1.00)
    else Experimental(0.444, "Directional guidance - use with domain expertise")
  }

  /** The result dictionary of `predict_time_overrun` / `predict_cost_overrun`
      (the `confidence_pct` display string is not modelled). */
  datatype OverrunResult = OverrunResult(
    projectId: string, target: Target, prediction: int, outcome: Label, confidence: Option<real>,
    status: ModelStatus, recommendation: Recommendation)

  /** `project_id or 'unknown'`: a missing or empty identifier becomes 'unknown'. */
  function ProjectIdOr(projectId: Option<string>): (id: string)
    ensures id == "unknown" <==> projectId.None? || projectId.value == "" || projectId.value == "unknown"
    ensures projectId.Some? && projectId.value != "" ==> id == projectId.value
  {
    if projectId.Some? && projectId.value != "" then projectId.value else "unknown"
  }

  function Features(m: Models, target: Target): seq<string>
  {
    if target == TimeTarget then m.metadata.timeFeatures else m.metadata.costFeatures
  }

  /** The classifier of a target: the stacking model for TIME, the logistic regression for COST. */
  function ClassifierFor(m: Models, target: Target): Classifier
  {
    if target == TimeTarget then m.timeModel else m.costModel
  }

  /** The scaler of a target. */
  function ScalerFor(m: Models, target: Target): Scaler
  {
    if target == TimeTarget then m.timeScaler else m.costScaler
  }

  /** The prediction of one target for one project by loaded models. */
  function Predict(m: Models, target: Target, x: FeatureRow, returnProba: bool, projectId: Option<string>)
    : (r: Result<OverrunResult>)
    ensures ValidateFeatures(x, Features(m, target), target).Err? ==>
      r == Err(ValidateFeatures(x, Features(m, target), target).error)
    ensures returnProba ==> (r.Ok? <==> ValidateFeatures(x, Features(m, target), target).Ok?)
    ensures ValidateFeatures(x, Features(m, target), target).Ok? ==>
      (r.Ok? <==> (returnProba ||
        ClassifierFor(m, target).predict(ScalerFor(m, target)(ValidateFeatures(x, Features(m, target), target).value)) == 0))
    ensures (ValidateFeatures(x, Features(m, target), target).Ok? && r.Err?) ==> r.error.TypeError?
    ensures r.Ok? ==> r.value.target == target && r.value.projectId == ProjectIdOr(projectId)
    ensures r.Ok? ==> r.value.status == StatusOf(target)
    ensures r.Ok? ==> (r.value.outcome == Overrun <==> r.value.prediction == 1)
    ensures r.Ok? ==> (r.value.confidence.Some? <==> returnProba)
    ensures r.Ok? ==> Recommend(r.value.prediction, r.value.confidence, target) == Ok(r.value.recommendation)
    ensures r.Ok? ==> ValidateFeatures(x, Features(m, target), target).Ok?
    ensures r.Ok? ==>
      var scaled := ScalerFor(m, target)(ValidateFeatures(x, Features(m, target), target).value);
      r.value.prediction == ClassifierFor(m, target).predict(scaled) &&
      (returnProba ==> r.value.confidence == Some(ClassifierFor(m, target).probability(scaled)))
  {
    var clf := ClassifierFor(m, target);
    var scale := ScalerFor(m, target);
    match ValidateFeatures(x, Features(m, target), target)
    case Err(e) => Err(e)
    case Ok(values) =>
      var scaled := scale(values);
      var prediction := clf.predict(scaled);
      var confidence := if returnProba then Some(clf.probability(scaled)) else None;
      match Recommend(prediction, confidence, target)
      case Err(e) => Err(e)
      case Ok(advice) =>
        Ok(OverrunResult(ProjectIdOr(projectId), target, prediction,
                         if prediction == 1 then Overrun else NoOverrun,
                         confidence, StatusOf(target), advice))
  }

  datatype OverallLevel = LowOverall | MediumOverall | HighOverall
  {
    function Order(): nat
    {
      match this
      case LowOverall => 0
      case MediumOverall => 1
      case HighOverall => 2
    }
  }

  /** `result['confidence'] or 0`. */
  function ConfidenceOrZero(c: Option<real>): real
  {
    if c.Some? then c.value else 0.0
  }

  /** `_calculate_overall_risk`: 0.7 time + 0.3 cost, cut at 0.7 and 0.5 (inclusive). */
  function OverallRisk(timeConfidence: Option<real>, costConfidence: Option<real>): (r: OverallLevel)
    ensures r == HighOverall <==> 0.7 * ConfidenceOrZero(timeConfidence) + 0.3 * ConfidenceOrZero(costConfidence) >= 0.7
    ensures r == LowOverall <==> 0.7 * ConfidenceOrZero(timeConfidence) + 0.3 * ConfidenceOrZero(costConfidence) < 0.5
  {
    var overall := 0.7 * ConfidenceOrZero(timeConfidence) + 0.3 * ConfidenceOrZero(costConfidence);
    if overall >= 0.7 then HighOverall else if overall >= 0.5 then MediumOverall else LowOverall
  }

  /** Raising either confidence never lowers the overall level. */
  lemma OverallRiskMonotone(t1: real, c1: real, t2: real, c2: real)
    requires t1 <= t2 && c1 <= c2
    ensures OverallRisk(Some(t1), Some(c1)).Order() <= OverallRisk(Some(t2), Some(c2)).Order()
  {
  }

  /** A missing confidence counts as zero. */
  lemma OverallRiskMissingIsZero(t: Option<real>, c: Option<real>)
    ensures OverallRisk(None, c) == OverallRisk(Some(0.0), c)
    ensures OverallRisk(t, None) == OverallRisk(t, Some(0.0))
  {
  }

  /** The weights sum to one, so the level always lies between the levels of the two
      confidences taken alone: two high confidences give HIGH, two low ones LOW. */
  lemma OverallRiskBetween(t: real, c: real)
    ensures t >= 0.7 && c >= 0.7 ==> OverallRisk(Some(t), Some(c)) == HighOverall
    ensures t < 0.5 && c < 0.5 ==> OverallRisk(Some(t), Some(c)) == LowOverall
  {
  }

  /** The dictionary of `predict_both`. */
  datatype Combined = Combined(projectId: string, time: OverrunResult, cost: OverrunResult, overall: OverallLevel)

  /** One project of the `projects` list of `rank_projects`: its `features` entry (absent:
      `None`) and its `project_id` entry (absent: `None`). */
  datatype ProjectInput = ProjectInput(features: Option<FeatureRow>, projectId: Option<string>)

  /** One row of the frame `rank_projects` builds before sorting. */
  datatype Scored = Scored(projectId: string, outcome: Label, confidence: real, recommendation: Recommendation)

  /** A row of the returned frame: its 1-based rank and the project's entries. */
  datatype Ranked = Ranked(rank: nat, project: Scored)

  function ConfidenceKey(s: Scored): real
  {
    s.confidence
  }

  function RankedConfidence(r: Ranked): real
  {
    r.project.confidence
  }

  /** `df_ranked['rank'] = range(1, len + 1)`. */
  function WithRanks(s: seq<Scored>, first: nat): (r: seq<Ranked>)
    ensures |r| == |s|
    ensures forall i :: 0 <= i < |s| ==> r[i] == Ranked(first + i, s[i])
  {
    if s == [] then [] else [Ranked(first, s[0])] + WithRanks(s[1..], first + 1)
  }

  function Projects(r: seq<Ranked>): (s: seq<Scored>)
    ensures |s| == |r|
    ensures forall i :: 0 <= i < |r| ==> s[i] == r[i].project
  {
    if r == [] then [] else [r[0].project] + Projects(r[1..])
  }

  /** Sorting, numbering and truncating the scored rows. An empty list has no `confidence`
      column, so sorting it raises KeyError. */
  function RankScored(scored: seq<Scored>, topK: Option<int>): Result<seq<Ranked>>
  {
    if scored == [] then Err(KeyError("confidence"))
    else
      var numbered := WithRanks(SortDesc(scored, ConfidenceKey), 1);
      Ok(if topK.Some? then Head(numbered, topK.value) else numbered)
  }

  /** The projects that survive `head(top_k)`, highest confidence first. */
  function Kept(scored: seq<Scored>, topK: Option<int>): seq<Scored>
  {
    var sorted := SortDesc(scored, ConfidenceKey);
    if topK.Some? then Head(sorted, topK.value) else sorted
  }

  /** Numbering before or after the cut gives the same rows: the ranked frame is the kept
      projects numbered from 1. */
  lemma RankScoredKept(scored: seq<Scored>, topK: Option<int>)
    ensures RankScored(scored, topK).Ok? <==> scored != []
    ensures RankScored(scored, topK).Ok? ==> RankScored(scored, topK).value == WithRanks(Kept(scored, topK), 1)
  {
    if scored != [] && topK.Some? {
      var sorted := SortDesc(scored, ConfidenceKey);
      var h := Head(WithRanks(sorted, 1), topK.value);
      var k := Head(sorted, topK.value);
      assert |h| == |k|;
      forall i | 0 <= i < |h| ensures h[i] == WithRanks(k, 1)[i] {
        assert h[i] == WithRanks(sorted, 1)[i];
        assert k[i] == sorted[i];
      }
    }
  }

  lemma ProjectsOfRanks(s: seq<Scored>, first: nat)
    ensures Projects(WithRanks(s, first)) == s
  {
    assert |Projects(WithRanks(s, first))| == |s|;
  }

  /** Highest confidence first, and ranks 1, 2, 3, ... with no gaps. */
  lemma RankOrder(scored: seq<Scored>, topK: Option<int>)
    requires RankScored(scored, topK).Ok?
    ensures SortedDesc(RankScored(scored, topK).value, RankedConfidence)
    ensures forall i :: 0 <= i < |RankScored(scored, topK).value| ==> RankScored(scored, topK).value[i].rank == i + 1
  {
    RankScoredKept(scored, topK);
    SortDescSorted(scored, ConfidenceKey);
    var sorted := SortDesc(scored, ConfidenceKey);
    var kept := Kept(scored, topK);
    var r := RankScored(scored, topK).value;
    assert kept == sorted[..|kept|];
    forall i, j | 0 <= i < j < |r| ensures RankedConfidence(r[i]) >= RankedConfidence(r[j]) {
      assert r[i].project == sorted[i] && r[j].project == sorted[j];
    }
  }

  lemma RankedProjectsAreKept(scored: seq<Scored>, topK: Option<int>)
    requires RankScored(scored, topK).Ok?
    ensures Projects(RankScored(scored, topK).value) == Kept(scored, topK)
  {
    RankScoredKept(scored, topK);
    ProjectsOfRanks(Kept(scored, topK), 1);
  }

  /** `head(top_k)` rows, and every project when there is no `top_k`. */
  lemma RankCount(scored: seq<Scored>, topK: Option<int>)
    requires RankScored(scored, topK).Ok?
    ensures |RankScored(scored, topK).value| == if topK.Some? then |Head(scored, topK.value)| else |scored|
  {
    RankedProjectsAreKept(scored, topK);
    SortDescPermutes(scored, ConfidenceKey);
  }

  /** Only scored projects appear, all of them when nothing is cut, and none of the projects
      cut off has a higher confidence than one that was kept. */
  lemma RankMembers(scored: seq<Scored>, topK: Option<int>)
    requires RankScored(scored, topK).Ok?
    ensures multiset(Projects(RankScored(scored, topK).value)) <= multiset(scored)
    ensures topK.None? ==> multiset(Projects(RankScored(scored, topK).value)) == multiset(scored)
    ensures forall x | x in multiset(scored) - multiset(Projects(RankScored(scored, topK).value)) ::
      forall i :: 0 <= i < |RankScored(scored, topK).value| ==>
        x.confidence <= RankScored(scored, topK).value[i].project.confidence
  {
    var r := RankScored(scored, topK).value;
    var kept := Kept(scored, topK);
    RankedProjectsAreKept(scored, topK);
    assert Projects(r) == kept;
    SortDescPermutes(scored, ConfidenceKey);
    var n := if topK.Some? then topK.value else |scored|;
    HeadOfSortedKeepsLargest(scored, ConfidenceKey, n);
    assert kept == Head(SortDesc(scored, ConfidenceKey), n);
    forall x | x in multiset(scored) - multiset(kept)
      ensures forall i :: 0 <= i < |r| ==> x.confidence <= r[i].project.confidence
    {
      forall i | 0 <= i < |r| ensures x.confidence <= r[i].project.confidence {
        assert r[i].project == Projects(r)[i] == kept[i];
        assert ConfidenceKey(x) <= ConfidenceKey(kept[i]);
      }
    }
  }

  /** `get_feature_importance` after the model is chosen: features paired with importances,
      cut to the shorter of the two, highest importance first, at most `head(top_n)` rows. */
  function Zip(features: seq<string>, importance: seq<real>): (r: seq<(string, real)>)
    ensures |r| == (if |features| < |importance| then |features| else |importance|)
    ensures forall i :: 0 <= i < |r| ==> r[i] == (features[i], importance[i])
  {
    if features == [] || importance == [] then []
    else [(features[0], importance[0])] + Zip(features[1..], importance[1..])
  }

  function ImportanceKey(p: (string, real)): real
  {
    p.1
  }

  /** `np.abs(coef_[0])` for a linear model, `feature_importances_` for trees. */
  function ImportanceOf(e: Estimator): (r: Result<seq<real>>)
    ensures r.Err? <==> e.Unsupported?
    ensures r.Ok? && e.Linear? ==> forall i :: 0 <= i < |r.value| ==> r.value[i] >= 0.0
  {
    match e
    case Linear(coef) => Ok(AbsAll(coef))
    case Trees(values) => Ok(values)
    case Unsupported => Err(ValueError("Model type not supported for feature importance"))
  }

  function TopImportances(features: seq<string>, importance: seq<real>, topN: int): seq<(string, real)>
  {
    Head(SortDesc(Zip(features, importance), ImportanceKey), topN)
  }

  /** The pairs come highest importance first. */
  lemma TopImportancesSorted(features: seq<string>, importance: seq<real>, topN: int)
    ensures SortedDesc(TopImportances(features, importance, topN), ImportanceKey)
  {
    var s := SortDesc(Zip(features, importance), ImportanceKey);
    var r := Head(s, topN);
    SortDescSorted(Zip(features, importance), ImportanceKey);
    forall i, j | 0 <= i < j < |r| ensures ImportanceKey(r[i]) >= ImportanceKey(r[j]) {
      assert r[i] == s[i] && r[j] == s[j];
    }
  }

  /** As many pairs as `head(top_n)` keeps of the zipped list. */
  lemma TopImportancesLength(features: seq<string>, importance: seq<real>, topN: int)
    ensures |TopImportances(features, importance, topN)| == |Head(Zip(features, importance), topN)|
  {
    var z := Zip(features, importance);
    var s := SortDesc(z, ImportanceKey);
    SortDescPermutes(z, ImportanceKey);
    assert |s| == |multiset(s)| == |multiset(z)| == |z|;
  }

  /** Only zipped pairs are kept, and no pair left out is more important than a kept one. */
  lemma TopImportancesKeepsLargest(features: seq<string>, importance: seq<real>, topN: int)
    ensures var r := TopImportances(features, importance, topN);
      multiset(r) <= multiset(Zip(features, importance)) &&
      (forall x: (string, real) | x in multiset(Zip(features, importance)) - multiset(r) ::
        forall i :: 0 <= i < |r| ==> x.1 <= r[i].1)
  {
    var z := Zip(features, importance);
    var r := TopImportances(features, importance, topN);
    HeadOfSortedKeepsLargest(z, ImportanceKey, topN);
    forall x: (string, real) | x in multiset(z) - multiset(r) ensures forall i :: 0 <= i < |r| ==> x.1 <= r[i].1 {
      forall i | 0 <= i < |r| ensures x.1 <= r[i].1 {
        assert ImportanceKey(x) <= ImportanceKey(r[i]);
      }
    }
  }

  lemma TopImportancesSpec(features: seq<string>, importance: seq<real>, topN: int)
    ensures var r := TopImportances(features, importance, topN);
      SortedDesc(r, ImportanceKey) &&
      |r| == |Head(Zip(features, importance), topN)| &&
      multiset(r) <= multiset(Zip(features, importance)) &&
      (forall x | x in multiset(Zip(features, importance)) - multiset(r) ::
        forall i :: 0 <= i < |r| ==> x.1 <= r[i].1)
  {
    TopImportancesSorted(features, importance, topN);
    TopImportancesLength(features, importance, topN);
    TopImportancesKeepsLargest(features, importance, topN);
  }

  /** The `base_model_i` names of the stacking fallback. */
  function BaseModelNames(n: nat): (r: seq<string>)
    ensures |r| == n
    ensures forall i :: 0 <= i < n ==> r[i] == "base_model_" + NatToString(i)
  {
    if n == 0 then [] else BaseModelNames(n - 1) + ["base_model_" + NatToString(n - 1)]
  }

  /** Which estimator and which feature names `get_feature_importance` uses. For TIME it is
      the first base estimator with the time features, falling back to the meta-learner and
      `base_model_i` names when `estimators_[0]` fails; the fallback itself fails on a model
      without `final_estimator_`. For COST it is the cost model and the cost features. */
  function ImportanceSource(m: Models, target: Target): (r: Result<(Estimator, seq<string>)>)
    ensures target == CostTarget ==> r.Ok? && r.value.1 == m.metadata.costFeatures
    ensures target == CostTarget && m.costModel.shape.Single? ==> r.value.0 == m.costModel.shape.estimator
    ensures target == CostTarget && m.costModel.shape.Stacking? ==> r.value.0 == Unsupported
    ensures target == TimeTarget && m.timeModel.shape.Stacking? && |m.timeModel.shape.estimators| == 0 ==>
      r == Ok((m.timeModel.shape.finalEstimator, BaseModelNames(|m.timeModel.shape.estimators|)))
    ensures target == TimeTarget && m.timeModel.shape.Stacking? && |m.timeModel.shape.estimators| > 0 ==>
      r == Ok((m.timeModel.shape.estimators[0], m.metadata.timeFeatures))
    ensures target == TimeTarget && m.timeModel.shape.Single? ==> r == Err(AttributeError("final_estimator_"))
  {
    if target == CostTarget then
      Ok((if m.costModel.shape.Single? then m.costModel.shape.estimator else Unsupported, m.metadata.costFeatures))
    else match m.timeModel.shape
      case Stacking(estimators, final) =>
        if |estimators| > 0 then Ok((estimators[0], m.metadata.timeFeatures))
        else Ok((final, BaseModelNames(|estimators|)))
      case Single(_) => Err(AttributeError("final_estimator_"))
  }

  /** The three alert renderings; the HTML one is framed in red for an overrun and in
      green otherwise. The fixed wording around the result's fields is not modelled. */
  datatype Colour = Red | Green
  datatype Alert = PlainText(result: OverrunResult) | Markdown(result: OverrunResult) | Html(result: OverrunResult, colour: Colour)

  /** `generate_alert`: dispatch on the format name. */
  function GenerateAlert(result: OverrunResult, format: string): (r: Result<Alert>)
    ensures r.Ok? <==> format == "text" || format == "markdown" || format == "html"
    ensures r.Err? ==> r.error.ValueError?
    ensures r.Ok? ==> r.value.result == result
    ensures r.Ok? ==> (r.value.PlainText? <==> format == "text") && (r.value.Html? <==> format == "html")
    ensures r.Ok? && r.value.Html? ==> (r.value.colour == Red <==> result.prediction == 1)
  {
    if format == "text" then Ok(PlainText(result))
    else if format == "markdown" then Ok(Markdown(result))
    else if format == "html" then Ok(Html(result, if result.prediction == 1 then Red else Green))
    else Err(ValueError("format must be 'text', 'markdown', or 'html'"))
  }

  /** The identifier of the project at position `i` in `rank_projects`: its `project_id`, or
      `project_i` when absent. */
  function RowId(i: nat, p: ProjectInput): string
  {
    if p.projectId.Some? then p.projectId.value else "project_" + NatToString(i)
  }

  /** One iteration of the `rank_projects` loop for the project at position `i`, on the
      predictor's `loaded` state and the parsed `target`: the project's features (KeyError
      when absent), its identifier (`project_i` when absent), the target check, and the
      prediction with probabilities (RuntimeError while no models are loaded). */
  function Score(loaded: Option<Models>, target: Result<Target>, i: nat, p: ProjectInput): (r: Result<Scored>)
    ensures p.features.None? ==> r == Err(KeyError("features"))
    ensures p.features.Some? && target.Err? ==> r == Err(target.error)
    ensures p.features.Some? && target.Ok? && loaded.None? ==> r.Err? && r.error.RuntimeError?
    ensures r.Ok? ==> (loaded.Some? && target.Ok? && p.features.Some? &&
      r.value.projectId == (if p.projectId.Some? then p.projectId.value else "project_" + NatToString(i)))
    ensures r.Ok? ==> exists res :: (Predict(loaded.value, target.value, p.features.value, true, Some(r.value.projectId)) == Ok(res) &&
      r.value == Scored(r.value.projectId, res.outcome, res.confidence.value, res.recommendation))
    ensures p.features.Some? && target.Ok? && loaded.Some? ==>
      (r.Ok? <==> Predict(loaded.value, target.value, p.features.value, true, Some(RowId(i, p))).Ok?)
    ensures (p.features.Some? && target.Ok? && loaded.Some? &&
             Predict(loaded.value, target.value, p.features.value, true, Some(RowId(i, p))).Err?) ==>
      r == Err(Predict(loaded.value, target.value, p.features.value, true, Some(RowId(i, p))).error)
  {
    if p.features.None? then Err(KeyError("features"))
    else
      var id := RowId(i, p);
      match target
      case Err(e) => Err(e)
      case Ok(t) =>
        if loaded.None? then Err(RuntimeError("Models not loaded. Initialize predictor first."))
        else match Predict(loaded.value, t, p.features.value, true, Some(id))
          case Err(e) => Err(e)
          case Ok(res) => Ok(Scored(id, res.outcome, res.confidence.value, res.recommendation))
  }

  function Scorer(loaded: Option<Models>, target: Result<Target>): (nat, ProjectInput) -> Result<Scored>
  {
    (i: nat, p: ProjectInput) => Score(loaded, target, i, p)
  }

  /** `OverrunPredictor`: the model directory and, once `_load_models` has succeeded, the
      loaded models (`models_loaded` is `loaded.Some?`). */
  class OverrunPredictor {
    var modelDir: string
    var loaded: Option<Models>

    /** The fields as `__init__` sets them before loading. */
    constructor Init(modelDir: string)
      ensures this.modelDir == modelDir && loaded.None?
    {
      this.modelDir := modelDir;
      loaded := None;
    }

    /** `_load_models`: on success every model is installed; on a missing file the error is
        returned and `loaded` keeps its old value. */
    method LoadModels(files: ModelFiles) returns (failure: Option<Error>)
      modifies this
      ensures modelDir == old(modelDir)
      ensures LoadFrom(modelDir, files).Ok? ==> loaded == Some(LoadFrom(modelDir, files).value) && failure.None?
      ensures LoadFrom(modelDir, files).Err? ==> loaded == old(loaded) && failure == Some(LoadFrom(modelDir, files).error)
    {
      match LoadFrom(modelDir, files) {
        case Ok(m) =>
          loaded := Some(m);
          failure := None;
        case Err(e) =>
          failure := Some(e);
      }
    }

    /** `OverrunPredictor(model_dir)`: construction loads the models or raises. */
    static method Open(modelDir: string, files: ModelFiles) returns (r: Result<OverrunPredictor>)
      ensures r.Err? <==> LoadFrom(modelDir, files).Err?
      ensures r.Err? ==> r.error == LoadFrom(modelDir, files).error
      ensures r.Ok? ==> (fresh(r.value) && r.value.modelDir == modelDir &&
        r.value.loaded == Some(LoadFrom(modelDir, files).value))
    {
      var p := new OverrunPredictor.Init(modelDir);
      var failure := p.LoadModels(files);
      if failure.Some? {
        r := Err(failure.value);
      } else {
        r := Ok(p);
      }
    }

    /** `predict_time_overrun` and `predict_cost_overrun`: refused while no models are loaded. */
    function PredictOverrun(target: Target, x: FeatureRow, returnProba: bool, projectId: Option<string>)
      : (r: Result<OverrunResult>)
      reads this
      ensures loaded.None? ==> r.Err? && r.error.RuntimeError?
      ensures loaded.Some? ==> r == Predict(loaded.value, target, x, returnProba, projectId)
    {
      if loaded.None? then Err(RuntimeError("Models not loaded. Initialize predictor first."))
      else Predict(loaded.value, target, x, returnProba, projectId)
    }

    /** `predict_both`: TIME first, then COST (so a TIME failure is the one raised), with
        probabilities, and the overall level of the two confidences. */
    function PredictBoth(xTime: FeatureRow, xCost: FeatureRow, projectId: Option<string>): (r: Result<Combined>)
      reads this
      ensures PredictOverrun(TimeTarget, xTime, true, projectId).Err? ==>
        r == Err(PredictOverrun(TimeTarget, xTime, true, projectId).error)
      ensures r.Ok? <==> (PredictOverrun(TimeTarget, xTime, true, projectId).Ok? &&
        PredictOverrun(CostTarget, xCost, true, projectId).Ok?)
      ensures (PredictOverrun(TimeTarget, xTime, true, projectId).Ok? &&
               PredictOverrun(CostTarget, xCost, true, projectId).Err?) ==>
        r == Err(PredictOverrun(CostTarget, xCost, true, projectId).error)
      ensures r.Ok? ==> (r.value.time == PredictOverrun(TimeTarget, xTime, true, projectId).value &&
        r.value.cost == PredictOverrun(CostTarget, xCost, true, projectId).value &&
        r.value.projectId == ProjectIdOr(projectId))
      ensures r.Ok? ==> (r.value.time.confidence.Some? && r.value.cost.confidence.Some? &&
        r.value.overall == OverallRisk(r.value.time.confidence, r.value.cost.confidence))
    {
      match PredictOverrun(TimeTarget, xTime, true, projectId)
      case Err(e) => Err(e)
      case Ok(time) =>
        match PredictOverrun(CostTarget, xCost, true, projectId)
        case Err(e) => Err(e)
        case Ok(cost) => Ok(Combined(ProjectIdOr(projectId), time, cost, OverallRisk(time.confidence, cost.confidence)))
    }

    /** `rank_projects`: scores every project in a loop, then sorts, numbers and truncates. */
    method RankProjects(projects: seq<ProjectInput>, target: string, topK: Option<int>) returns (r: Result<seq<Ranked>>)
      ensures MapFrom(projects, 0, Scorer(loaded, ParseTarget(target))).Err? ==>
        r == Err(MapFrom(projects, 0, Scorer(loaded, ParseTarget(target))).error)
      ensures MapFrom(projects, 0, Scorer(loaded, ParseTarget(target))).Ok? ==>
        r == RankScored(MapFrom(projects, 0, Scorer(loaded, ParseTarget(target))).value, topK)
    {
      var scored := Collect(projects, Scorer(loaded, ParseTarget(target)));
      if scored.Err? {
        return Err(scored.error);
      }
      r := RankScored(scored.value, topK);
    }

    /** `get_feature_importance`. */
    function FeatureImportance(target: string, topN: int): (r: Result<seq<(string, real)>>)
      reads this
      ensures ParseTarget(target).Err? ==> r == Err(ParseTarget(target).error)
      ensures r.Ok? ==> loaded.Some? && SortedDesc(r.value, ImportanceKey)
      ensures r.Ok? ==> exists est, names ::
        ImportanceSource(loaded.value, ParseTarget(target).value) == Ok((est, names)) &&
        ImportanceOf(est).Ok? && r.value == TopImportances(names, ImportanceOf(est).value, topN)
      ensures ParseTarget(target).Ok? && loaded.None? ==>
        r.Err? && (if ParseTarget(target).value == TimeTarget then r.error.AttributeError? else r.error.TypeError?)
      ensures ParseTarget(target).Ok? && loaded.Some? ==>
        (r.Ok? <==> (ImportanceSource(loaded.value, ParseTarget(target).value).Ok? &&
          ImportanceOf(ImportanceSource(loaded.value, ParseTarget(target).value).value.0).Ok?))
      ensures (ParseTarget(target).Ok? && loaded.Some? &&
               ImportanceSource(loaded.value, ParseTarget(target).value).Err?) ==>
        r == Err(ImportanceSource(loaded.value, ParseTarget(target).value).error)
      ensures (ParseTarget(target).Ok? && loaded.Some? &&
               ImportanceSource(loaded.value, ParseTarget(target).value).Ok? &&
               ImportanceOf(ImportanceSource(loaded.value, ParseTarget(target).value).value.0).Err?) ==>
        r == Err(ImportanceOf(ImportanceSource(loaded.value, ParseTarget(target).value).value.0).error)
    {
      match ParseTarget(target)
      case Err(e) => Err(e)
      case Ok(t) =>
        if loaded.None? then
          (if t == TimeTarget then Err(AttributeError("final_estimator_"))
           else Err(TypeError("'NoneType' object is not subscriptable")))
        else match ImportanceSource(loaded.value, t)
          case Err(e) => Err(e)
          case Ok(source) =>
            match ImportanceOf(source.0)
            case Err(e) => Err(e)
            case Ok(importance) =>
              TopImportancesSpec(source.1, importance, topN);
              Ok(TopImportances(source.1, importance, topN))
    }
  }
}
