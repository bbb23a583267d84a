/** The rule-based daily safety alert of safety/safety_dashboard.py: two derived features
    (heat index, worker density), a three-way strict-threshold OR rule, and the per-row batch
    driver. The decision is memoryless: each day is judged on that day's values alone. */
module Safety {
  import opened Common

  /** The three alert thresholds (the `thresholds` dictionary of the configuration). */
  datatype Thresholds = Thresholds(vibration: real, heatIndex: real, workerDensity: real)

  /** Thresholds used when no configuration file exists. */
  const DefaultThresholds := Thresholds(35.0, 35.0, 100.0)

  /** Contents of the JSON configuration file; `validationPerformance` is absent when the
      file has no `validation_performance` entry. */
  datatype Config = Config(thresholds: Thresholds, validationPerformance: Option<map<string, real>>)

  /** The three leading indicators, in the order the rule checks them. */
  datatype Factor = Vibration | HeatIndexFactor | WorkerDensityFactor

  /** One fired rule: which indicator, the value measured and the threshold it exceeded
      (the source renders these three as one display string). */
  datatype Trigger = Trigger(factor: Factor, reading: real, threshold: real)

  datatype RiskLevel = HighRisk | LowRisk

  /** What `check_thresholds` returns: the level and the two parallel lists. */
  datatype Assessment = Assessment(level: RiskLevel, triggered: seq<Trigger>, recommendations: seq<Advice>)

  /** A number as reported in the `features` dictionary: `round(value, digits)`.
      Rounding is presentation only and is kept symbolic. */
  datatype Shown = Shown(value: real, digits: nat)

  datatype Features = Features(
    vibration: Shown, heatIndex: Shown, workerDensity: Shown, temperature: Shown,
    humidity: Shown, workerCount: Shown, utilization: Shown)

  /** The result dictionary of `predict_daily_risk` (the wall-clock timestamp is not modelled). */
  datatype Prediction = Prediction(
    date: string, level: RiskLevel, features: Features, thresholds: Thresholds,
    triggered: seq<Trigger>, recommendations: seq<Advice>, performance: map<string, real>)

  /** One row of the daily frame given to `batch_predict`: the date of its `timestamp`
      column if the frame has one, and the numeric columns by name. */
  datatype Row = Row(timestamp: Option<string>, columns: map<string, real>)

  /** Heat stress indicator from temperature (Celsius) and relative humidity (percent). */
  function HeatIndex(temperature: real, humidity: real): real
  {
    temperature + 0.5555 * (humidity / 100.0) * (temperature - 14.0)
  }

  /** Workers per unit of equipment utilisation; Python raises ZeroDivisionError when the
      denominator is zero, which the callers below model as an error. */
  function WorkerDensity(workerCount: real, utilization: real): real
    requires utilization + 0.1 != 0.0
  {
    workerCount / (utilization + 0.1)
  }

  lemma HeatIndexDryAir(temperature: real)
    ensures HeatIndex(temperature, 0.0) == temperature
  {
  }

  lemma HeatIndexAtFourteen(humidity: real)
    ensures HeatIndex(14.0, humidity) == 14.0
  {
  }

  /** At 14 degrees or more and a humidity in [0, 100], humidity never lowers the heat index,
      and it adds at most 0.5555 times the excess over 14 degrees. */
  lemma HeatIndexAtLeastTemperature(temperature: real, humidity: real)
    requires 0.0 <= humidity <= 100.0 && temperature >= 14.0
    ensures temperature <= HeatIndex(temperature, humidity) <= temperature + 0.5555 * (temperature - 14.0)
  {
    var h := humidity / 100.0;
    var x := temperature - 14.0;
    assert 0.0 <= h <= 1.0;
    assert 0.0 <= h * x <= x by {
      assert h * x <= 1.0 * x;
    }
    assert HeatIndex(temperature, humidity) == temperature + 0.5555 * (h * x);
  }

  /** A non-negative utilisation keeps the denominator positive, and for a positive crew
      density strictly falls as utilisation rises. */
  lemma DensityFallsWithUtilization(workerCount: real, u1: real, u2: real)
    requires workerCount > 0.0 && 0.0 <= u1 < u2
    ensures u1 + 0.1 > 0.0 && u2 + 0.1 > 0.0
    ensures WorkerDensity(workerCount, u2) < WorkerDensity(workerCount, u1)
  {
    var a, b := u1 + 0.1, u2 + 0.1;
    var x, y := workerCount / a, workerCount / b;
    assert x * a == workerCount && y * b == workerCount;
    assert x > 0.0;
    assert x * a < x * b;
    assert y * b < x * b;
  }

  /** One entry of the recommendations list: the safety actions for an indicator. */
  datatype Advice = Advice(factor: Factor) {
    /** The recommendation text, verbatim. */
    function Text(): string
    {
      match factor
      case Vibration =>
        "• Inspect all machinery before operation\n• Reduce concurrent heavy equipment usage\n"
        + "• Increase operator breaks (every 2 hours)\n• Mandatory vibration PPE checks"
      case HeatIndexFactor =>
        "• Mandatory hydration breaks every hour\n• Shift work to cooler hours (avoid 12-4 PM)\n"
        + "• Deploy cooling stations with water and shade\n• Enforce heat-appropriate PPE"
      case WorkerDensityFactor =>
        "• Stagger work schedules to reduce congestion\n• Expand work zones (increase spacing)\n"
        + "• Deploy additional supervisors\n• Implement one-way traffic rules"
    }
  }

  /** Position of an indicator in the checking order. */
  function Rank(f: Factor): nat
  {
    match f
    case Vibration => 0
    case HeatIndexFactor => 1
    case WorkerDensityFactor => 2
  }

  /** The threshold for an indicator. */
  function Limit(t: Thresholds, f: Factor): real
  {
    match f
    case Vibration => t.vibration
    case HeatIndexFactor => t.heatIndex
    case WorkerDensityFactor => t.workerDensity
  }

  /** The rule: each indicator strictly above its threshold contributes one trigger and its
      advice, in the order vibration, heat index, worker density; any trigger means HIGH RISK. */
  function Assess(t: Thresholds, vibration: real, heatIndex: real, workerDensity: real): Assessment
  {
    var triggered :=
      (if vibration > t.vibration then [Trigger(Vibration, vibration, t.vibration)] else [])
      + (if heatIndex > t.heatIndex then [Trigger(HeatIndexFactor, heatIndex, t.heatIndex)] else [])
      + (if workerDensity > t.workerDensity then [Trigger(WorkerDensityFactor, workerDensity, t.workerDensity)] else []);
    var recommendations :=
      (if vibration > t.vibration then [Advice(Vibration)] else [])
      + (if heatIndex > t.heatIndex then [Advice(HeatIndexFactor)] else [])
      + (if workerDensity > t.workerDensity then [Advice(WorkerDensityFactor)] else []);
    Assessment(if |triggered| > 0 then HighRisk else LowRisk, triggered, recommendations)
  }

  /** The reading an assessment compares against the threshold of `f`. */
  function Reading(f: Factor, vibration: real, heatIndex: real, workerDensity: real): real
  {
    match f
    case Vibration => vibration
    case HeatIndexFactor => heatIndex
    case WorkerDensityFactor => workerDensity
  }

  /** HIGH RISK exactly when some indicator is strictly above its threshold. */
  lemma AssessHighIff(t: Thresholds, v: real, h: real, d: real)
    ensures Assess(t, v, h, d).level == HighRisk <==>
      v > t.vibration || h > t.heatIndex || d > t.workerDensity
    ensures Assess(t, v, h, d).level == LowRisk <==>
      v <= t.vibration && h <= t.heatIndex && d <= t.workerDensity
  {
  }

  /** An indicator is reported exactly when it is strictly above its threshold, with the
      value and threshold compared; so a value equal to its threshold never fires. */
  lemma AssessTriggersExactly(t: Thresholds, v: real, h: real, d: real, f: Factor)
    ensures (exists i :: 0 <= i < |Assess(t, v, h, d).triggered| && Assess(t, v, h, d).triggered[i].factor == f)
      <==> Reading(f, v, h, d) > Limit(t, f)
    ensures forall i :: 0 <= i < |Assess(t, v, h, d).triggered| ==>
      var g := Assess(t, v, h, d).triggered[i];
      g.reading == Reading(g.factor, v, h, d) && g.threshold == Limit(t, g.factor) && g.reading > g.threshold
  {
    var a := Assess(t, v, h, d);
    if Reading(f, v, h, d) > Limit(t, f) {
      var i := if f == Vibration then 0
        else if f == HeatIndexFactor then (if v > t.vibration then 1 else 0)
        else (if v > t.vibration then 1 else 0) + (if h > t.heatIndex then 1 else 0);
      assert a.triggered[i].factor == f;
    }
  }

  /** The two lists are parallel (same length, at most three, advice matching its trigger)
      and ordered vibration, heat index, worker density. */
  lemma AssessListsParallel(t: Thresholds, v: real, h: real, d: real)
    ensures |Assess(t, v, h, d).triggered| == |Assess(t, v, h, d).recommendations| <= 3
    ensures forall i :: 0 <= i < |Assess(t, v, h, d).triggered| ==>
      Assess(t, v, h, d).recommendations[i] == Advice(Assess(t, v, h, d).triggered[i].factor)
    ensures forall i, j :: 0 <= i < j < |Assess(t, v, h, d).triggered| ==>
      Rank(Assess(t, v, h, d).triggered[i].factor) < Rank(Assess(t, v, h, d).triggered[j].factor)
  {
  }

  /** `predict_daily_risk` on given values: the rule is applied to the unrounded derived
      features; only the reported `features` carry the rounding. */
  function DailyRisk(t: Thresholds, performance: map<string, real>, date: string, vibration: real,
                     temperature: real, humidity: real, workerCount: real, utilization: real): Result<Prediction>
  {
    if utilization + 0.1 == 0.0 then Err(ZeroDivisionError)
    else
      var heat := HeatIndex(temperature, humidity);
      var density := WorkerDensity(workerCount, utilization);
      var a := Assess(t, vibration, heat, density);
      Ok(Prediction(date, a.level,
        Features(Shown(vibration, 2), Shown(heat, 2), Shown(density, 2), Shown(temperature, 2),
                 Shown(humidity, 2), Shown(workerCount, 1), Shown(utilization, 3)),
        t, a.triggered, a.recommendations, performance))
  }

  /** The decision in terms of the raw inputs: HIGH RISK exactly when vibration, the heat
      index or the worker density computed from them is strictly above its threshold. */
  lemma DailyRiskDecision(t: Thresholds, perf: map<string, real>, date: string, v: real,
                          temp: real, hum: real, wc: real, u: real)
    ensures DailyRisk(t, perf, date, v, temp, hum, wc, u).Err? <==> u + 0.1 == 0.0
    ensures u + 0.1 != 0.0 ==>
      var p := DailyRisk(t, perf, date, v, temp, hum, wc, u).value;
      (p.level == HighRisk <==>
        v > t.vibration || HeatIndex(temp, hum) > t.heatIndex || WorkerDensity(wc, u) > t.workerDensity)
      && p.date == date && p.thresholds == t && p.performance == perf
      && |p.triggered| == |p.recommendations| <= 3
  {
    if u + 0.1 != 0.0 {
      AssessHighIff(t, v, HeatIndex(temp, hum), WorkerDensity(wc, u));
      AssessListsParallel(t, v, HeatIndex(temp, hum), WorkerDensity(wc, u));
    }
  }

  /** Utilisation of a row: `equipment_utilization_rate`, else `equipment_utilization`, else 0.5. */
  function RowUtilization(columns: map<string, real>): real
  {
    if "equipment_utilization_rate" in columns then columns["equipment_utilization_rate"]
    else if "equipment_utilization" in columns then columns["equipment_utilization"]
    else 0.5
  }

  /** One iteration of `batch_predict`: the date or "N/A", then the required columns in
      argument order (a missing one raises KeyError), then the prediction. */
  function RowPrediction(t: Thresholds, performance: map<string, real>, row: Row): Result<Prediction>
  {
    var date := if row.timestamp.Some? then row.timestamp.value else "N/A";
    var c := row.columns;
    if "vibration_level" !in c then Err(KeyError("vibration_level"))
    else if "temperature" !in c then Err(KeyError("temperature"))
    else if "humidity" !in c then Err(KeyError("humidity"))
    else if "worker_count" !in c then Err(KeyError("worker_count"))
    else DailyRisk(t, performance, date, c["vibration_level"], c["temperature"], c["humidity"],
                   c["worker_count"], RowUtilization(c))
  }

  /** `RowPrediction` as one step of the `batch_predict` loop over rows. */
  function RowStep(t: Thresholds, performance: map<string, real>): (nat, Row) -> Result<Prediction>
  {
    (i: nat, row: Row) => RowPrediction(t, performance, row)
  }

  /** The utilisation fallback and the date default, as seen in a successful row result. */
  lemma RowPredictionFallbacks(t: Thresholds, perf: map<string, real>, row: Row)
    ensures RowPrediction(t, perf, row).Ok? ==>
      var p := RowPrediction(t, perf, row).value;
      p.features.utilization.value ==
        (if "equipment_utilization_rate" in row.columns then row.columns["equipment_utilization_rate"]
         else if "equipment_utilization" in row.columns then row.columns["equipment_utilization"]
         else 0.5)
      && p.date == (if row.timestamp.Some? then row.timestamp.value else "N/A")
      && p.features.vibration.value == row.columns["vibration_level"]
    ensures ("vibration_level" !in row.columns ==> RowPrediction(t, perf, row) == Err(KeyError("vibration_level")))
  {
  }

  /** The performance block of the printed report. */
  datatype PerformanceBlock = NotAvailable | Metrics(recall: real, precision: real, f1: real)

  /** The branch-dependent body of the report: triggers and numbered actions, or the all-clear. */
  datatype ReportBody = AlertBody(triggers: seq<Trigger>, actions: seq<(nat, Advice)>) | AllClear

  /** The content of `generate_alert_report` (banner lines and emoji are not modelled). */
  datatype Report = Report(date: string, level: RiskLevel, body: ReportBody,
                           measured: seq<(string, real)>, performance: PerformanceBlock)

  /** `generate_alert_report`. A non-empty performance dictionary lacking `recall`,
      `precision` or `f1_score` makes the numeric format of the 'N/A' default raise ValueError. */
  function AlertReport(p: Prediction): (r: Result<Report>)
    ensures r.Err? <==> (p.performance != map[] &&
      ("recall" !in p.performance || "precision" !in p.performance || "f1_score" !in p.performance))
    ensures r.Ok? ==> r.value.level == p.level && r.value.date == p.date
    ensures r.Ok? ==> (r.value.body.AlertBody? <==> p.level == HighRisk)
    ensures r.Ok? && r.value.body.AlertBody? ==>
      r.value.body.triggers == p.triggered &&
      |r.value.body.actions| == |p.recommendations| &&
      forall i :: 0 <= i < |p.recommendations| ==> r.value.body.actions[i] == (i + 1, p.recommendations[i])
    ensures r.Ok? ==> (r.value.performance.NotAvailable? <==> p.performance == map[])
  {
    var f := p.features;
    var measured := [("Vibration Level", f.vibration.value), ("Heat Index", f.heatIndex.value),
                     ("Worker Density", f.workerDensity.value), ("Temperature", f.temperature.value),
                     ("Humidity", f.humidity.value), ("Worker Count", f.workerCount.value)];
    var perf := p.performance;
    if perf != map[] && ("recall" !in perf || "precision" !in perf || "f1_score" !in perf) then
      Err(ValueError("cannot format 'N/A' as a number"))
    else
      var body := if p.level == HighRisk
        then AlertBody(p.triggered, seq(|p.recommendations|, i requires 0 <= i < |p.recommendations| => (i + 1, p.recommendations[i])))
        else AllClear;
      var block := if perf == map[] then NotAvailable
        else Metrics(perf["recall"], perf["precision"], perf["f1_score"]);
      Ok(Report(p.date, p.level, body, measured, block))
  }

  /** `SafetyAlertSystem`: the thresholds and validation metrics loaded at construction. */
  class SafetyAlertSystem {
    var thresholds: Thresholds
    var performance: map<string, real>

    /** `config` is the parsed configuration file, `None` when the file does not exist. */
    constructor (config: Option<Config>)
      ensures config.None? ==> thresholds == DefaultThresholds && performance == map[]
      ensures config.Some? ==> thresholds == config.value.thresholds
      ensures config.Some? && config.value.validationPerformance.Some? ==>
        performance == config.value.validationPerformance.value
      ensures config.Some? && config.value.validationPerformance.None? ==> performance == map[]
    {
      thresholds := DefaultThresholds;
      performance := map[];
      new;
      LoadThresholds(config);
    }

    /** `load_thresholds`: replaces both fields from the file, or installs the defaults. */
    method LoadThresholds(config: Option<Config>)
      modifies this
      ensures config.None? ==> thresholds == DefaultThresholds && performance == map[]
      ensures config.Some? ==> thresholds == config.value.thresholds
      ensures config.Some? && config.value.validationPerformance.Some? ==>
        performance == config.value.validationPerformance.value
      ensures config.Some? && config.value.validationPerformance.None? ==> performance == map[]
    {
      match config {
        case Some(c) =>
          thresholds := c.thresholds;
          performance := match c.validationPerformance
            case Some(m) => m
            case None => map[];
        case None =>
          thresholds := Thresholds(35.0, 35.0, 100.0);
          performance := map[];
      }
    }

    /** `check_thresholds`: builds the two lists by appending, one check at a time. */
    method CheckThresholds(vibration: real, heatIndex: real, workerDensity: real) returns (a: Assessment)
      ensures a == Assess(thresholds, vibration, heatIndex, workerDensity)
      ensures a.level == HighRisk <==>
        vibration > thresholds.vibration || heatIndex > thresholds.heatIndex || workerDensity > thresholds.workerDensity
    {
      var triggered: seq<Trigger> := [];
      var recommendations: seq<Advice> := [];
      if vibration > thresholds.vibration {
        triggered := triggered + [Trigger(Vibration, vibration, thresholds.vibration)];
        recommendations := recommendations + [Advice(Vibration)];
      }
      if heatIndex > thresholds.heatIndex {
        triggered := triggered + [Trigger(HeatIndexFactor, heatIndex, thresholds.heatIndex)];
        recommendations := recommendations + [Advice(HeatIndexFactor)];
      }
      if workerDensity > thresholds.workerDensity {
        triggered := triggered + [Trigger(WorkerDensityFactor, workerDensity, thresholds.workerDensity)];
        recommendations := recommendations + [Advice(WorkerDensityFactor)];
      }
      var level := if |triggered| > 0 then HighRisk else LowRisk;
      a := Assessment(level, triggered, recommendations);
    }

    /** `predict_daily_risk`. */
    method PredictDailyRisk(date: string, vibration: real, temperature: real, humidity: real,
                            workerCount: real, utilization: real) returns (r: Result<Prediction>)
      ensures r == DailyRisk(thresholds, performance, date, vibration, temperature, humidity, workerCount, utilization)
      ensures r.Err? <==> utilization + 0.1 == 0.0
      ensures r.Ok? ==> (r.value.level == HighRisk <==>
        vibration > thresholds.vibration || HeatIndex(temperature, humidity) > thresholds.heatIndex ||
        WorkerDensity(workerCount, utilization) > thresholds.workerDensity)
    {
      if utilization + 0.1 == 0.0 {
        return Err(ZeroDivisionError);
      }
      var heat := HeatIndex(temperature, humidity);
      var density := WorkerDensity(workerCount, utilization);
      var a := CheckThresholds(vibration, heat, density);
      var features := Features(Shown(vibration, 2), Shown(heat, 2), Shown(density, 2), Shown(temperature, 2),
                               Shown(humidity, 2), Shown(workerCount, 1), Shown(utilization, 3));
      r := Ok(Prediction(date, a.level, features, thresholds, a.triggered, a.recommendations, performance));
    }

    /** `batch_predict`: loops over the rows, appending each day's result; the first row that
        fails (a missing column, a zero denominator) ends the loop with its exception. */
    method BatchPredict(rows: seq<Row>) returns (r: Result<seq<Prediction>>)
      ensures r.Ok? <==> forall i :: 0 <= i < |rows| ==> RowPrediction(thresholds, performance, rows[i]).Ok?
      ensures r.Ok? ==> (|r.value| == |rows| &&
        forall i :: 0 <= i < |rows| ==> r.value[i] == RowPrediction(thresholds, performance, rows[i]).value)
      ensures r.Err? ==> exists i :: (0 <= i < |rows| && RowPrediction(thresholds, performance, rows[i]) == Err(r.error) &&
        forall j :: 0 <= j < i ==> RowPrediction(thresholds, performance, rows[j]).Ok?)
      ensures r == MapFrom(rows, 0, RowStep(thresholds, performance))
    {
      var results: seq<Prediction> := [];
      var i := 0;
      while i < |rows|
        invariant 0 <= i <= |rows| && |results| == i
        invariant forall j :: 0 <= j < i ==>
          RowPrediction(thresholds, performance, rows[j]).Ok? &&
          results[j] == RowPrediction(thresholds, performance, rows[j]).value
      {
        var row := rows[i];
        var date := if row.timestamp.Some? then row.timestamp.value else "N/A";
        var c := row.columns;
        var p: Result<Prediction>;
        if "vibration_level" !in c {
          p := Err(KeyError("vibration_level"));
        } else if "temperature" !in c {
          p := Err(KeyError("temperature"));
        } else if "humidity" !in c {
          p := Err(KeyError("humidity"));
        } else if "worker_count" !in c {
          p := Err(KeyError("worker_count"));
        } else {
          p := PredictDailyRisk(date, c["vibration_level"], c["temperature"], c["humidity"],
                                c["worker_count"], RowUtilization(c));
        }
        assert p == RowPrediction(thresholds, performance, row);
        if p.Err? {
          MapFromFirstErr(rows, 0, i, RowStep(thresholds, performance));
          return Err(p.error);
        }
        results := results + [p.value];
        i := i + 1;
      }
      r := Ok(results);
      MapFromOk(rows, 0, RowStep(thresholds, performance));
      assert MapFrom(rows, 0, RowStep(thresholds, performance)).value == results;
    }
  }
}
