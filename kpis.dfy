/** The KPI arithmetic of kpis/etl_kpis.py: the data-health index (a 0.40/0.30/0.15/0.15
    weighted sum of four ratio-derived sub-scores) and the derived per-period KPIs. Pandas
    resampling, quantiles and the median of timestamp differences are inputs here. */
module Kpis {
  import opened Common

  /** One column of a frame: its name, whether pandas counts it as numeric, its cells
      (`None` for a missing value) and its 0.25 and 0.75 quantiles as pandas computes them. */
  datatype Column = Column(name: string, numeric: bool, cells: seq<Option<real>>, q1: real, q3: real)

  /** A frame: its row count, its columns, and the number of timestamp differences that
      exceed twice their median (what the gap check counts; meaningful with a `timestamp`
      column). */
  datatype Frame = Frame(rows: nat, columns: seq<Column>, largeGaps: nat)

  /** The shape every DataFrame has: each column holds one cell per row. Of the `rows - 1`
      sorted timestamp differences, those above twice their median lie strictly above the
      upper middle one, so there are none below two differences and at most
      `(rows - 2) / 2` otherwise. */
  predicate Rectangular(df: Frame)
  {
    (forall i :: 0 <= i < |df.columns| ==> |df.columns[i].cells| == df.rows)
    && (df.largeGaps == 0 || 2 * df.largeGaps + 2 <= df.rows)
  }

  function IsNull(c: Option<real>): bool
  {
    c.None?
  }

  /** Cells holding a value below `lo` or above `hi`; missing cells compare false. */
  function CountOutside(cells: seq<Option<real>>, lo: real, hi: real): (n: nat)
    ensures n <= |cells|
  {
    if cells == [] then 0
    else (if cells[0].Some? && (cells[0].value < lo || cells[0].value > hi) then 1 else 0) + CountOutside(cells[1..], lo, hi)
  }

  /** The first column called `name`, if any. */
  function ColumnNamed(cols: seq<Column>, name: string): (r: Option<Column>)
    ensures r.Some? <==> exists i :: 0 <= i < |cols| && cols[i].name == name
    ensures r.Some? ==> r.value in cols && r.value.name == name
  {
    if cols == [] then None
    else if cols[0].name == name then Some(cols[0])
    else ColumnNamed(cols[1..], name)
  }

  /** `df.isnull().sum().sum()` over the first `n` columns. */
  function MissingCells(cols: seq<Column>, n: nat): nat
    requires n <= |cols|
  {
    if n == 0 then 0 else MissingCells(cols, n - 1) + Count(cols[n - 1].cells, IsNull)
  }

  lemma {:induction false} MissingCellsBound(df: Frame, n: nat)
    requires Rectangular(df) && n <= |df.columns|
    ensures MissingCells(df.columns, n) <= df.rows * n
  {
    if n > 0 {
      MissingCellsBound(df, n - 1);
      assert df.rows * n == df.rows * (n - 1) + df.rows;
    }
  }

  /** Share of non-missing cells, in percent; with no cells at all the division is 0/0 and
      the score is NaN (`None`). */
  function Missingness(df: Frame): Option<real>
  {
    var total := df.rows * |df.columns|;
    if total == 0 then None
    else Some((total as real - MissingCells(df.columns, |df.columns|) as real) / total as real * 100.0)
  }

  /** For 0 <= a <= n and n > 0, the ratio a / n lies in [0, 1]. */
  lemma RatioBounds(a: real, n: real)
    requires 0.0 <= a <= n && n > 0.0
    ensures 0.0 <= a / n <= 1.0
  {
    assert a / n * n == a;
  }

  lemma MissingnessBounds(df: Frame)
    requires Rectangular(df)
    ensures Missingness(df).Some? <==> df.rows * |df.columns| > 0
    ensures Missingness(df).Some? ==> 0.0 <= Missingness(df).value <= 100.0
  {
    var total := df.rows * |df.columns|;
    if total > 0 {
      MissingCellsBound(df, |df.columns|);
      var present := total as real - MissingCells(df.columns, |df.columns|) as real;
      RatioBounds(present, total as real);
    }
  }

  /** The outlier fences `Q1 - 3 IQR` and `Q3 + 3 IQR`. */
  function Fences(c: Column): (real, real)
  {
    (c.q1 - 3.0 * (c.q3 - c.q1), c.q3 + 3.0 * (c.q3 - c.q1))
  }

  /** A numeric column with at least one value takes part in the outlier check. */
  predicate Checked(c: Column)
  {
    c.numeric && |c.cells| - Count(c.cells, IsNull) > 0
  }

  /** `outlier_ratios` after the loop has visited the first `n` columns. */
  function OutlierRatios(df: Frame, n: nat): (r: seq<real>)
    requires Rectangular(df) && n <= |df.columns|
    ensures forall i :: 0 <= i < |r| ==> 0.0 <= r[i] <= 1.0
  {
    if n == 0 then []
    else
      var c := df.columns[n - 1];
      var earlier := OutlierRatios(df, n - 1);
      if Checked(c) then
        var outliers := CountOutside(c.cells, Fences(c).0, Fences(c).1);
        RatioBounds(outliers as real, df.rows as real);
        earlier + [outliers as real / df.rows as real]
      else earlier
  }

  /** `np.mean` of a list, and 0 for the empty list as the code substitutes. */
  function Mean(s: seq<real>): real
  {
    if s == [] then 0.0 else Sum(s) / |s| as real
  }

  lemma MeanOfFractions(s: seq<real>)
    requires forall i :: 0 <= i < |s| ==> 0.0 <= s[i] <= 1.0
    ensures 0.0 <= Mean(s) <= 1.0
  {
    if s != [] {
      SumBounds(s, 0.0, 1.0);
      RatioBounds(Sum(s), |s| as real);
    }
  }

  function OutlierScore(df: Frame): real
    requires Rectangular(df)
  {
    (1.0 - Mean(OutlierRatios(df, |df.columns|))) * 100.0
  }

  /** With a `timestamp` column, the share of rows not preceded by a large gap; 100 without
      one. An empty frame with the column gives 0/0, NaN. */
  function GapScore(df: Frame): Option<real>
  {
    if ColumnNamed(df.columns, "timestamp").Some? then
      (if df.rows == 0 then None else Some((1.0 - df.largeGaps as real / df.rows as real) * 100.0))
    else Some(100.0)
  }

  /** One range check of the improbable-value test: the out-of-range cells of the named
      column and one check per row, or nothing when the column is absent. */
  function RangeCheck(df: Frame, name: string, lo: real, hi: real): (r: (nat, nat))
    requires Rectangular(df)
    ensures r.0 <= r.1
  {
    match ColumnNamed(df.columns, name)
    case None => (0, 0)
    case Some(c) => (CountOutside(c.cells, lo, hi), df.rows)
  }

  /** `improbable_count` and `checks` after the three range checks: temperature outside
      [-50, 60], humidity outside [0, 100], task progress outside [0, 100]. */
  function Improbable(df: Frame): (r: (nat, nat))
    requires Rectangular(df)
    ensures r.0 <= r.1
  {
    var t := RangeCheck(df, "temperature", -50.0, 60.0);
    var h := RangeCheck(df, "humidity", 0.0, 100.0);
    var p := RangeCheck(df, "task_progress", 0.0, 100.0);
    (t.0 + h.0 + p.0, t.1 + h.1 + p.1)
  }

  function ImprobableScore(df: Frame): real
    requires Rectangular(df)
  {
    var (count, checks) := Improbable(df);
    if checks > 0 then (1.0 - count as real / checks as real) * 100.0 else 100.0
  }

  /** Without a checked column the loop collects no outlier ratio. */
  lemma {:induction false} NoCheckedNoRatios(df: Frame, n: nat)
    requires Rectangular(df) && n <= |df.columns|
    requires forall i :: 0 <= i < |df.columns| ==> !Checked(df.columns[i])
    ensures OutlierRatios(df, n) == []
  {
    if n > 0 {
      NoCheckedNoRatios(df, n - 1);
    }
  }

  /** The defaults of the three sub-scores: no numeric column with values gives an outlier
      score of 100, no `timestamp` column a gap score of 100, and none of the temperature,
      humidity and task progress columns an improbable-value score of 100. */
  lemma SubScoreDefaults(df: Frame)
    requires Rectangular(df)
    ensures (forall i :: 0 <= i < |df.columns| ==> !Checked(df.columns[i])) ==> OutlierScore(df) == 100.0
    ensures (forall i :: 0 <= i < |df.columns| ==> df.columns[i].name != "timestamp") ==>
      GapScore(df) == Some(100.0)
    ensures (forall i :: 0 <= i < |df.columns| ==>
      df.columns[i].name != "temperature" && df.columns[i].name != "humidity" &&
      df.columns[i].name != "task_progress") ==> ImprobableScore(df) == 100.0
  {
    if forall i :: 0 <= i < |df.columns| ==> !Checked(df.columns[i]) {
      NoCheckedNoRatios(df, |df.columns|);
    }
  }

  /** The weighted sum of `calculate_data_health`; NaN (`None`) when a sub-score is NaN. */
  function DataHealth(df: Frame): Option<real>
    requires Rectangular(df)
  {
    match (Missingness(df), GapScore(df))
    case (Some(m), Some(g)) => Some(0.40 * m + 0.30 * OutlierScore(df) + 0.15 * g + 0.15 * ImprobableScore(df))
    case _ => None
  }

  /** Every sub-score lies in [0, 100]. */
  lemma SubScoreBounds(df: Frame)
    requires Rectangular(df)
    ensures 0.0 <= OutlierScore(df) <= 100.0
    ensures GapScore(df).Some? ==> 0.0 <= GapScore(df).value <= 100.0
    ensures 0.0 <= ImprobableScore(df) <= 100.0
  {
    MeanOfFractions(OutlierRatios(df, |df.columns|));
    if ColumnNamed(df.columns, "timestamp").Some? && df.rows > 0 {
      RatioBounds(df.largeGaps as real, df.rows as real);
    }
    var (count, checks) := Improbable(df);
    if checks > 0 {
      RatioBounds(count as real, checks as real);
    }
  }

  /** The index is NaN exactly for a frame without cells, and otherwise lies in [0, 100]:
      the weights sum to one and every sub-score lies in [0, 100]. */
  lemma DataHealthBounds(df: Frame)
    requires Rectangular(df)
    ensures DataHealth(df).Some? <==> df.rows * |df.columns| > 0
    ensures DataHealth(df).Some? ==> 0.0 <= DataHealth(df).value <= 100.0
  {
    MissingnessBounds(df);
    SubScoreBounds(df);
    if df.rows * |df.columns| > 0 {
      assert df.rows > 0;
    } else if df.rows > 0 {
      assert |df.columns| == 0;
      assert ColumnNamed(df.columns, "timestamp").None?;
    }
  }

  /** The index reaches 100 only when all four sub-scores do. */
  lemma DataHealthPerfectIff(df: Frame)
    requires Rectangular(df)
    requires DataHealth(df).Some?
    ensures DataHealth(df).value == 100.0 <==>
      Missingness(df).value == 100.0 && OutlierScore(df) == 100.0 &&
      GapScore(df).value == 100.0 && ImprobableScore(df) == 100.0
  {
    MissingnessBounds(df);
    SubScoreBounds(df);
  }

  /** The improbable-value checks of `calculate_data_health`, accumulated one range at a time. */
  method CountImprobable(df: Frame) returns (improbable: nat, checks: nat)
    requires Rectangular(df)
    ensures (improbable, checks) == Improbable(df)
    ensures improbable <= checks
  {
    improbable, checks := 0, 0;
    var temperature := ColumnNamed(df.columns, "temperature");
    if temperature.Some? {
      improbable := improbable + CountOutside(temperature.value.cells, -50.0, 60.0);
      checks := checks + df.rows;
    }
    var humidity := ColumnNamed(df.columns, "humidity");
    if humidity.Some? {
      improbable := improbable + CountOutside(humidity.value.cells, 0.0, 100.0);
      checks := checks + df.rows;
    }
    var progress := ColumnNamed(df.columns, "task_progress");
    if progress.Some? {
      improbable := improbable + CountOutside(progress.value.cells, 0.0, 100.0);
      checks := checks + df.rows;
    }
  }

  /** `calculate_data_health`: the outlier loop appends one ratio per checked column and the
      improbable-value checks accumulate counts; the result is the weighted sum. */
  method CalculateDataHealth(df: Frame) returns (health: Option<real>)
    requires Rectangular(df)
    ensures health == DataHealth(df)
    ensures health.Some? ==> 0.0 <= health.value <= 100.0
  {
    var ratios: seq<real> := [];
    var i := 0;
    while i < |df.columns|
      invariant 0 <= i <= |df.columns|
      invariant ratios == OutlierRatios(df, i)
    {
      var c := df.columns[i];
      if Checked(c) {
        var (lo, hi) := Fences(c);
        var outliers := CountOutside(c.cells, lo, hi);
        ratios := ratios + [outliers as real / df.rows as real];
      }
      i := i + 1;
    }
    var outlierScore := (1.0 - Mean(ratios)) * 100.0;
    var improbable, checks := CountImprobable(df);
    var improbableScore := if checks > 0 then (1.0 - improbable as real / checks as real) * 100.0 else 100.0;

    var missingness := Missingness(df);
    var gaps := GapScore(df);
    if missingness.Some? && gaps.Some? {
      health := Some(0.40 * missingness.value + 0.30 * outlierScore + 0.15 * gaps.value + 0.15 * improbableScore);
    } else {
      health := None;
    }
    DataHealthBounds(df);
  }

  /** `compute_project_kpis` refuses a frame without a `timestamp` column; otherwise it works
      on a copy and never changes its argument. */
  function RequireTimestamp(df: Frame): (r: Result<Frame>)
    ensures r.Err? <==> ColumnNamed(df.columns, "timestamp").None?
    ensures r.Err? ==> r.error.ValueError?
    ensures r.Ok? ==> r.value == df
  {
    if ColumnNamed(df.columns, "timestamp").None? then Err(ValueError("DataFrame must have 'timestamp' column"))
    else Ok(df)
  }

  /** The columns that remain after `set_index('timestamp')`. */
  function DropColumn(cols: seq<Column>, name: string): (r: seq<Column>)
    ensures forall i :: 0 <= i < |r| ==> r[i] in cols && r[i].name != name
    ensures forall c :: c in r <==> c in cols && c.name != name
    ensures |r| <= |cols|
    ensures (forall i :: 0 <= i < |cols| ==> cols[i].name != name) ==> r == cols
  {
    if cols == [] then []
    else (if cols[0].name == name then [] else [cols[0]]) + DropColumn(cols[1..], name)
  }

  /** A period's slice of the frame once the timestamp has become the index. */
  function IndexedByTimestamp(period: Frame): (r: Frame)
    ensures ColumnNamed(r.columns, "timestamp").None?
    ensures r.rows == period.rows && r.largeGaps == period.largeGaps
    ensures r.columns == DropColumn(period.columns, "timestamp")
    ensures Rectangular(period) ==> Rectangular(r)
  {
    Frame(period.rows, DropColumn(period.columns, "timestamp"), period.largeGaps)
  }

  /** The health of every period as the loop of `compute_project_kpis` computes it: on the
      period's rows of the timestamp-indexed frame, NaN for an empty period. */
  function PeriodHealthAsWritten(period: Frame): Option<real>
    requires Rectangular(period)
  {
    if period.rows > 0 then DataHealth(IndexedByTimestamp(period)) else None
  }

  /** The gap sub-score never sees the timestamp: whatever the gaps, it is 100 for every
      period. */
  lemma AsWrittenIgnoresGaps(period: Frame)
    requires Rectangular(period)
    ensures GapScore(IndexedByTimestamp(period)) == Some(100.0)
  {
  }

  /** A period of four rows stamped at hours 0, 1, 2 and 9 with a steady crew of five: the
      differences are 1, 1 and 7, their median 1, so one difference is a large gap. */
  function GapExample(): Frame
  {
    Frame(4, [Column("timestamp", false, [Some(0.0), Some(1.0), Some(2.0), Some(9.0)], 0.0, 0.0),
              Column("worker_count", true, [Some(5.0), Some(5.0), Some(5.0), Some(5.0)], 5.0, 5.0)], 1)
  }

  /** The steady crew column: no missing cell and nothing outside its fences. */
  lemma CrewColumnClean()
    ensures var c := GapExample().columns[1];
      Count(c.cells, IsNull) == 0 && Checked(c) && CountOutside(c.cells, Fences(c).0, Fences(c).1) == 0
  {
    var c := GapExample().columns[1];
    assert c.cells[1..][1..][1..][1..] == [];
  }

  /** The example period has no missing cell. */
  lemma ExampleMissingness()
    ensures Rectangular(GapExample()) && Missingness(GapExample()) == Some(100.0)
  {
    var p := GapExample();
    CrewColumnClean();
    assert p.columns[0].cells[1..][1..][1..][1..] == [];
    assert Count(p.columns[0].cells, IsNull) == 0;
    assert MissingCells(p.columns, 2) == 0;
  }

  /** Nor has it once the timestamp has become the index. */
  lemma IndexedMissingness()
    ensures Missingness(IndexedByTimestamp(GapExample())) == Some(100.0)
  {
    var p := GapExample();
    CrewColumnClean();
    assert IndexedByTimestamp(p).columns == [p.columns[1]];
    assert MissingCells(IndexedByTimestamp(p).columns, 1) == 0;
  }

  /** Its only checked column is the crew column, which has no outlier. */
  lemma ExampleOutliers()
    ensures Rectangular(GapExample()) && OutlierScore(GapExample()) == 100.0
  {
    var p := GapExample();
    CrewColumnClean();
    assert !Checked(p.columns[0]);
    assert OutlierRatios(p, 1) == [];
    assert OutlierRatios(p, 2) == [0.0];
    assert Mean([0.0]) == 0.0;
  }

  /** The same holds once the timestamp has become the index. */
  lemma IndexedOutliers()
    ensures OutlierScore(IndexedByTimestamp(GapExample())) == 100.0
  {
    var p := GapExample();
    CrewColumnClean();
    assert IndexedByTimestamp(p).columns == [p.columns[1]];
    assert OutlierRatios(IndexedByTimestamp(p), 1) == [0.0];
    assert Mean([0.0]) == 0.0;
  }

  /** It has none of the range-checked columns. */
  lemma ExampleImprobable()
    ensures Rectangular(GapExample()) && ImprobableScore(GapExample()) == 100.0
  {
    SubScoreDefaults(GapExample());
  }

  lemma IndexedImprobable()
    ensures ImprobableScore(IndexedByTimestamp(GapExample())) == 100.0
  {
    var p := GapExample();
    assert IndexedByTimestamp(p).columns == [p.columns[1]];
    SubScoreDefaults(IndexedByTimestamp(p));
  }

  /** On that period the gap check on its own timestamps gives 75 and the index 96.25. */
  lemma GapExampleHealth()
    ensures Rectangular(GapExample()) && GapScore(GapExample()) == Some(75.0)
    ensures DataHealth(GapExample()) == Some(96.25)
  {
    ExampleMissingness();
    ExampleOutliers();
    ExampleImprobable();
    assert ColumnNamed(GapExample().columns, "timestamp").Some?;
  }

  /** So as written that period scores 100. */
  lemma IndexedExampleHealth()
    ensures DataHealth(IndexedByTimestamp(GapExample())) == Some(100.0)
  {
    IndexedMissingness();
    IndexedOutliers();
    IndexedImprobable();
    AsWrittenIgnoresGaps(GapExample());
  }

  /** As written the same period scores its gaps 100 and the whole period 100. */
  lemma AsWrittenMissesGap()
    ensures var p := GapExample();
      Rectangular(p) && GapScore(IndexedByTimestamp(p)) == Some(100.0) && GapScore(p) == Some(75.0)
      && PeriodHealthAsWritten(p) == Some(100.0) && PeriodHealthAsWritten(p) != DataHealth(p)
  {
    GapExampleHealth();
    IndexedExampleHealth();
    AsWrittenIgnoresGaps(GapExample());
  }

  /** With the timestamp kept as a column of the period's data, the gap score counts the
      large gaps: it is below 100 exactly when there is one. */
  lemma GapScoreSeesGaps(period: Frame)
    requires Rectangular(period) && period.rows > 0
    requires ColumnNamed(period.columns, "timestamp").Some?
    ensures GapScore(period).Some?
    ensures GapScore(period).value < 100.0 <==> period.largeGaps > 0
  {
    var ratio := period.largeGaps as real / period.rows as real;
    assert ratio * period.rows as real == period.largeGaps as real;
  }

  /** The per-period health loop of `compute_project_kpis`, scoring each period's rows with
      the timestamp kept as a column so that the gap check applies; an empty period is NaN. */
  method PeriodHealth(periods: seq<Frame>) returns (scores: seq<Option<real>>)
    requires forall i :: 0 <= i < |periods| ==> Rectangular(periods[i])
    ensures |scores| == |periods|
    ensures forall i :: 0 <= i < |periods| ==>
      scores[i] == if periods[i].rows > 0 then DataHealth(periods[i]) else None
    ensures forall i :: 0 <= i < |periods| ==> scores[i].Some? ==> 0.0 <= scores[i].value <= 100.0
  {
    scores := [];
    var i := 0;
    while i < |periods|
      invariant 0 <= i <= |periods| && |scores| == i
      invariant forall j :: 0 <= j < i ==> scores[j] == if periods[j].rows > 0 then DataHealth(periods[j]) else None
      invariant forall j :: 0 <= j < i ==> scores[j].Some? ==> 0.0 <= scores[j].value <= 100.0
    {
      var health: Option<real> := None;
      if periods[i].rows > 0 {
        health := CalculateDataHealth(periods[i]);
      }
      scores := scores + [health];
      i := i + 1;
    }
  }

  /** Energy per worker for one row, `energy / (workers + 1)`; `None` stands for the
      non-finite value pandas yields when the denominator is zero. */
  function EnergyPerWorker(energy: real, workers: real): (r: Option<real>)
    ensures r.Some? <==> workers + 1.0 != 0.0
  {
    if workers + 1.0 == 0.0 then None else Some(energy / (workers + 1.0))
  }

  /** For a non-negative worker count the denominator is at least one, so the value is
      finite, has the sign of the energy and never exceeds it. */
  lemma EnergyPerWorkerBounded(energy: real, workers: real)
    requires workers >= 0.0
    ensures EnergyPerWorker(energy, workers).Some?
    ensures energy >= 0.0 ==> 0.0 <= EnergyPerWorker(energy, workers).value <= energy
    ensures energy <= 0.0 ==> energy <= EnergyPerWorker(energy, workers).value <= 0.0
  {
    var d := workers + 1.0;
    var q := energy / d;
    assert q * d == energy;
  }

  /** `progress_velocity`: per period, the last task progress minus the first. */
  function ProgressVelocity(first: seq<real>, last: seq<real>): (r: seq<real>)
    requires |first| == |last|
    ensures |r| == |first|
    ensures forall i :: 0 <= i < |r| ==> r[i] + first[i] == last[i]
  {
    if first == [] then [] else [last[0] - first[0]] + ProgressVelocity(first[1..], last[1..])
  }

  /** `resource_utilization` when both columns exist: 0.6 of the equipment utilisation plus
      0.4 of the worker intensity scaled to its maximum; NaN or infinite (`None`) when that
      maximum is zero. */
  function ResourceUtilization(utilization: seq<real>, workers: seq<real>): (r: seq<Option<real>>)
    requires |utilization| == |workers| && |workers| > 0
    ensures |r| == |workers|
    ensures forall i :: 0 <= i < |r| ==> (r[i].Some? <==> Max(workers) != 0.0)
  {
    var top := Max(workers);
    seq(|workers|, i requires 0 <= i < |workers| =>
      if top == 0.0 then None else Some(utilization[i] * 0.6 + workers[i] / top * 100.0 * 0.4))
  }

  /** With utilisation in [0, 100] and a positive worker intensity, the combination stays in
      [0, 100]. */
  lemma ResourceUtilizationBounds(utilization: seq<real>, workers: seq<real>)
    requires |utilization| == |workers| && |workers| > 0
    requires forall i :: 0 <= i < |workers| ==> 0.0 <= utilization[i] <= 100.0 && workers[i] > 0.0
    ensures forall i :: 0 <= i < |workers| ==>
      ResourceUtilization(utilization, workers)[i].Some? &&
      0.0 <= ResourceUtilization(utilization, workers)[i].value <= 100.0
  {
    var top := Max(workers);
    assert top >= workers[0] > 0.0;
    forall i | 0 <= i < |workers|
      ensures 0.0 <= ResourceUtilization(utilization, workers)[i].value <= 100.0
    {
      RatioBounds(workers[i], top);
    }
  }

  /** One period's score against the largest absolute deviation `top`. */
  function Relative(deviation: real, top: real): real
    requires top > 0.0
  {
    100.0 - Abs(deviation) / top * 100.0
  }

  lemma RelativeFacts(d: real, e: real, top: real)
    requires top > 0.0 && Abs(d) <= top && Abs(e) <= top
    ensures 0.0 <= Relative(d, top) <= 100.0
    ensures Abs(d) == top ==> Relative(d, top) == 0.0
    ensures Abs(d) <= Abs(e) ==> Relative(d, top) >= Relative(e, top)
  {
    RatioBounds(Abs(d), top);
    if Abs(d) == top {
      assert Abs(d) / top == 1.0 by { assert 1.0 * top == Abs(d); }
    }
    if Abs(d) <= Abs(e) {
      DivideMonotone(Abs(d), Abs(e), top);
    }
  }

  lemma DivideMonotone(a: real, b: real, n: real)
    requires 0.0 <= a <= b && n > 0.0
    ensures a / n <= b / n
  {
    var x := a / n;
    var y := b / n;
    assert x * n == a;
    assert y * n == b;
    assert (y - x) * n == b - a;
  }

  /** Cost efficiency and schedule adherence: `100 - |d| / max|d| * 100` per period, or 100
      everywhere when every deviation is zero. */
  function InverseScore(deviation: seq<real>): (r: seq<real>)
    ensures |r| == |deviation|
  {
    if deviation == [] then []
    else
      var top := Max(AbsAll(deviation));
      if top > 0.0 then seq(|deviation|, i requires 0 <= i < |deviation| => Relative(deviation[i], top))
      else seq(|deviation|, i => 100.0)
  }

  /** Each period's score in terms of the largest absolute deviation. */
  lemma InverseScoreAt(deviation: seq<real>, i: nat)
    requires i < |deviation|
    ensures Abs(deviation[i]) <= Max(AbsAll(deviation))
    ensures InverseScore(deviation)[i] ==
      var top := Max(AbsAll(deviation));
      if top > 0.0 then Relative(deviation[i], top) else 100.0
  {
    assert AbsAll(deviation)[i] == Abs(deviation[i]);
  }

  /** Every period scores in [0, 100]. */
  lemma InverseScoreBounds(deviation: seq<real>)
    ensures forall i :: 0 <= i < |deviation| ==> 0.0 <= InverseScore(deviation)[i] <= 100.0
  {
    forall i | 0 <= i < |deviation| ensures 0.0 <= InverseScore(deviation)[i] <= 100.0 {
      InverseScoreAt(deviation, i);
      if Max(AbsAll(deviation)) > 0.0 {
        RelativeFacts(deviation[i], deviation[i], Max(AbsAll(deviation)));
      }
    }
  }

  /** The period(s) with the largest absolute deviation score 0 (when that deviation is not
      zero). */
  lemma InverseScoreWorstIsZero(deviation: seq<real>, k: nat)
    requires k < |deviation|
    requires forall i :: 0 <= i < |deviation| ==> Abs(deviation[i]) <= Abs(deviation[k])
    requires deviation[k] != 0.0
    ensures InverseScore(deviation)[k] == 0.0
  {
    InverseScoreAt(deviation, k);
    var a := AbsAll(deviation);
    var j :| 0 <= j < |a| && a[j] == Max(a);
    assert a[j] == Abs(deviation[j]) <= Abs(deviation[k]);
    RelativeFacts(deviation[k], deviation[k], Max(a));
  }

  /** With no deviation anywhere every period scores 100. */
  lemma InverseScoreAllZero(deviation: seq<real>)
    requires forall i :: 0 <= i < |deviation| ==> deviation[i] == 0.0
    ensures forall i :: 0 <= i < |deviation| ==> InverseScore(deviation)[i] == 100.0
  {
    forall i | 0 <= i < |deviation| ensures InverseScore(deviation)[i] == 100.0 {
      InverseScoreAt(deviation, i);
      var a := AbsAll(deviation);
      var j :| 0 <= j < |a| && a[j] == Max(a);
      assert a[j] == 0.0;
    }
  }

  /** A smaller deviation never scores lower. */
  lemma InverseScoreOrder(deviation: seq<real>, i: nat, j: nat)
    requires i < |deviation| && j < |deviation|
    requires Abs(deviation[i]) <= Abs(deviation[j])
    ensures InverseScore(deviation)[i] >= InverseScore(deviation)[j]
  {
    InverseScoreAt(deviation, i);
    InverseScoreAt(deviation, j);
    if Max(AbsAll(deviation)) > 0.0 {
      RelativeFacts(deviation[i], deviation[j], Max(AbsAll(deviation)));
    }
  }
}
