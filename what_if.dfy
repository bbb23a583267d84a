/** The what-if simulator of sim/what_if.py: a scenario is the current state with two
    features changed, and the forecast is read from three quantile models. The quantile
    models are opaque functions of the scenario record. */
module WhatIf {
  import opened Common

  /** A single-row frame: feature name to value. */
  type Record = map<string, real>

  /** A fitted quantile regressor: `model.predict(X)[0]`. */
  type QuantileModel = Record -> real

  /** `build_scenario_input`: a copy of the current state in which the worker count is shifted
      by `workerDelta` and the utilisation rate is scaled by `multiplier`; nothing is clamped.
      Reading a column the frame lacks raises KeyError, the worker count being read first. */
  function BuildScenario(current: Record, workerDelta: int, multiplier: real): (r: Result<Record>)
    ensures "worker_count" !in current ==> r == Err(KeyError("worker_count"))
    ensures "worker_count" in current && "equipment_utilization_rate" !in current ==>
      r == Err(KeyError("equipment_utilization_rate"))
    ensures r.Ok? <==> "worker_count" in current && "equipment_utilization_rate" in current
    ensures r.Ok? ==> r.value.Keys == current.Keys
    ensures r.Ok? ==> r.value["worker_count"] == current["worker_count"] + workerDelta as real
    ensures r.Ok? ==> r.value["equipment_utilization_rate"] == current["equipment_utilization_rate"] * multiplier
    ensures r.Ok? ==> forall k :: k in current && k != "worker_count" && k != "equipment_utilization_rate" ==>
      r.value[k] == current[k]
  {
    if "worker_count" !in current then Err(KeyError("worker_count"))
    else if "equipment_utilization_rate" !in current then Err(KeyError("equipment_utilization_rate"))
    else Ok(current["worker_count" := current["worker_count"] + workerDelta as real]
                   ["equipment_utilization_rate" := current["equipment_utilization_rate"] * multiplier])
  }

  /** With the default arguments (no extra workers, multiplier 1.0) the scenario is the
      current state itself. */
  lemma BuildScenarioDefaults(current: Record)
    requires "worker_count" in current && "equipment_utilization_rate" in current
    ensures BuildScenario(current, 0, 1.0) == Ok(current)
  {
    var s := BuildScenario(current, 0, 1.0).value;
    assert forall k :: k in s <==> k in current;
    assert forall k :: k in s ==> s[k] == current[k];
    assert s == current;
  }

  /** Two scenarios applied one after the other are one scenario: the deltas add up and the
      multipliers multiply. */
  lemma BuildScenarioComposes(current: Record, d1: int, m1: real, d2: int, m2: real)
    requires BuildScenario(current, d1, m1).Ok?
    ensures BuildScenario(BuildScenario(current, d1, m1).value, d2, m2) == BuildScenario(current, d1 + d2, m1 * m2)
  {
    var once := BuildScenario(current, d1, m1).value;
    var twice := BuildScenario(once, d2, m2).value;
    var direct := BuildScenario(current, d1 + d2, m1 * m2).value;
    var u := current["equipment_utilization_rate"];
    assert u * m1 * m2 == u * (m1 * m2);
    assert (d1 + d2) as real == d1 as real + d2 as real;
    assert twice.Keys == direct.Keys;
    assert forall k :: k in twice ==> twice[k] == direct[k];
    assert twice == direct;
  }

  /** The result dictionary of `predict_scenario`. */
  datatype Forecast = Forecast(point: real, lower: real, upper: real)

  /** `predict_scenario`: the median model gives the point estimate, the low and high models
      give the bounds, and the three are not sorted against each other. */
  function PredictScenario(x: Record, low: QuantileModel, median: QuantileModel, high: QuantileModel): (f: Forecast)
    ensures f.point == median(x) && f.lower == low(x) && f.upper == high(x)
  {
    Forecast(median(x), low(x), high(x))
  }

  /** The interval is ordered only when the three models happen to agree: two models that
      cross give a lower bound above the point estimate. */
  lemma ForecastMayBeInverted(x: Record)
    ensures var f := PredictScenario(x, _ => 2.0, _ => 1.0, _ => 3.0); f.lower > f.point
  {
  }

  /** The three progress-delta models of `what_if_api`, loaded in the order p10, p50, p90;
      `None` when a file is missing. */
  datatype ProgressModelFiles = ProgressModelFiles(
    p10: Option<QuantileModel>, p50: Option<QuantileModel>, p90: Option<QuantileModel>)

  /** What `what_if_api` returns: the p50 estimate and the (p10, p90) interval. */
  datatype WhatIfOutput = WhatIfOutput(estimate: real, interval: (real, real))

  /** `what_if_api`: loads the three models, builds the scenario and maps the forecast. */
  function WhatIfApi(current: Record, workerChange: int, utilizationChange: real, files: ProgressModelFiles)
    : (r: Result<WhatIfOutput>)
    ensures files.p10.None? ==> r == Err(FileNotFoundError("models/lgbm_progress_delta_p10_model.pkl"))
    ensures files.p10.Some? && files.p50.None? ==> r == Err(FileNotFoundError("models/lgbm_progress_delta_p50_model.pkl"))
    ensures (files.p10.Some? && files.p50.Some? && files.p90.None?) ==>
      r == Err(FileNotFoundError("models/lgbm_progress_delta_p90_model.pkl"))
    ensures files.p10.Some? && files.p50.Some? && files.p90.Some? ==>
      (r.Ok? <==> BuildScenario(current, workerChange, utilizationChange).Ok?)
    ensures (files.p10.Some? && files.p50.Some? && files.p90.Some? &&
             BuildScenario(current, workerChange, utilizationChange).Err?) ==>
      r == Err(BuildScenario(current, workerChange, utilizationChange).error)
    ensures r.Ok? ==> (files.p10.Some? && files.p50.Some? && files.p90.Some? &&
      BuildScenario(current, workerChange, utilizationChange).Ok? &&
      var x := BuildScenario(current, workerChange, utilizationChange).value;
      r.value.estimate == files.p50.value(x) && r.value.interval == (files.p10.value(x), files.p90.value(x)))
  {
    if files.p10.None? then Err(FileNotFoundError("models/lgbm_progress_delta_p10_model.pkl"))
    else if files.p50.None? then Err(FileNotFoundError("models/lgbm_progress_delta_p50_model.pkl"))
    else if files.p90.None? then Err(FileNotFoundError("models/lgbm_progress_delta_p90_model.pkl"))
    else match BuildScenario(current, workerChange, utilizationChange)
      case Err(e) => Err(e)
      case Ok(x) =>
        var f := PredictScenario(x, files.p10.value, files.p50.value, files.p90.value);
        Ok(WhatIfOutput(f.point, (f.lower, f.upper)))
  }
}
