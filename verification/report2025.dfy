/** The analysis and export tables of scripts/FatigueCalcEnhanced2025.py:
    the zone counts and risk share of enhanced_analysis_2025, the per-hour
    labels and deviations of the hourly sheet, and the daily summary rows. */
module EnhancedReport2025 {
  import opened Common
  import opened PerformanceZones

  datatype RiskLevel = LowRisk | ModerateRisk | HighRisk | CriticalRisk

  /** The risk that goes with each performance category. */
  function RiskOfCategory(c: Category): RiskLevel
  {
    match c
    case Optimal => LowRisk
    case Moderate => ModerateRisk
    case Poor => HighRisk
    case Critical => CriticalRisk
  }

  /** risk_level: its own cascade of thresholds, which always names the risk
      of the score's category. */
  function RiskLevelOf(score: real): (r: RiskLevel)
    ensures r == RiskOfCategory(CategorizePerformance(score))
  {
    if score >= 80.0 then LowRisk
    else if score >= 60.0 then ModerateRisk
    else if score >= 50.0 then HighRisk
    else CriticalRisk
  }

  /** Each risk level belongs to exactly one category. */
  lemma RiskPairingIsOneToOne(c1: Category, c2: Category)
    ensures RiskOfCategory(c1) == RiskOfCategory(c2) <==> c1 == c2
  {
  }

  /** The "Cumulative_Risk_Score" of one hour: how far the score falls short
      of 80. */
  function CumulativeRisk(score: real): (r: real)
    ensures r >= 0.0 && r >= 80.0 - score
    ensures r == 0.0 <==> score >= 80.0
    ensures score < 80.0 ==> r + score == 80.0
  {
    if 0.0 >= 80.0 - score then 0.0 else 80.0 - score
  }

  /** The reference score the hourly sheet measures deviations from. */
  const Baseline: real := 77.5

  datatype HourlyRecord = HourlyRecord(dayNumber: int, performance: real, category: Category, risk: RiskLevel,
                                       deviationFromBaseline: real, deviationFromAverage: real,
                                       cumulativeRisk: real)

  /** The score-derived columns of the hourly sheet; `average` is the
      analysis' average performance. */
  function HourlyTable(performances: seq<real>, average: real): (rows: seq<HourlyRecord>)
    ensures |rows| == |performances|
    ensures forall i :: 0 <= i < |rows| ==>
      && 24 * (rows[i].dayNumber - 1) <= i < 24 * rows[i].dayNumber
      && rows[i].performance == performances[i]
      && rows[i].deviationFromBaseline + Baseline == performances[i]
      && rows[i].deviationFromAverage + average == performances[i]
      && rows[i].category == CategorizePerformance(performances[i])
      && rows[i].risk == RiskLevelOf(performances[i])
      && rows[i].cumulativeRisk == CumulativeRisk(performances[i])
      && rows[i].risk == RiskOfCategory(rows[i].category)
      && (rows[i].category == Optimal <==> rows[i].cumulativeRisk == 0.0)
  {
    seq(|performances|, i requires 0 <= i < |performances| =>
      var p := performances[i];
      HourlyRecord(i / 24 + 1, p, CategorizePerformance(p), RiskLevelOf(p),
                   p - Baseline, p - average, CumulativeRisk(p)))
  }

  // ---------------------------------------------------------------------------
  // enhanced_analysis_2025
  // ---------------------------------------------------------------------------

  datatype Analysis = Analysis(averagePerformance: real, minPerformance: real, maxPerformance: real,
                               optimalHours: nat, moderateHours: nat, poorHours: nat, criticalHours: nat,
                               riskPercentage: real, sleepDebtImpact: real)

  /** With no hours `np.min` raises and the risk share divides by zero. */
  datatype AnalysisError = NoHours

  function EnhancedAnalysis(performances: seq<real>, totalSleepDebt: real): Result<Analysis, AnalysisError>
  {
    if |performances| == 0 then Err(NoHours)
    else
      var poor := CountIf(performances, IsPoor);
      var critical := CountIf(performances, IsCritical);
      Ok(Analysis(Mean(performances), Min(performances), Max(performances),
                  CountIf(performances, IsOptimal), CountIf(performances, IsModerate), poor, critical,
                  PercentOf(poor + critical, |performances|),
                  totalSleepDebt * 0.0056 * 100.0))
  }

  /** The analysis fails exactly on an empty run. Otherwise the four zones
      partition the hours and the risk share is the percentage of hours below
      60 (poor and critical; moderate hours are not counted), so it lies in
      [0, 100]. */
  lemma AnalysisZones(performances: seq<real>, totalSleepDebt: real)
    ensures EnhancedAnalysis(performances, totalSleepDebt).Err? <==> |performances| == 0
    ensures EnhancedAnalysis(performances, totalSleepDebt).Ok? ==>
      var a := EnhancedAnalysis(performances, totalSleepDebt).value;
      var n := |performances|;
      && a.optimalHours + a.moderateHours + a.poorHours + a.criticalHours == n
      && a.riskPercentage == PercentOf(n - a.optimalHours - a.moderateHours, n)
      && 0.0 <= a.riskPercentage <= 100.0
  {
    if |performances| > 0 {
      var a := EnhancedAnalysis(performances, totalSleepDebt).value;
      var n := |performances|;
      FourZonesPartition(performances);
      var bad := a.poorHours + a.criticalHours;
      assert bad == n - a.optimalHours - a.moderateHours;
      Percentage(bad, n);
    }
  }

  /** The reported average lies between the reported extremes, and each hour
      of sleep debt costs 0.56 points. */
  lemma AnalysisStatistics(performances: seq<real>, totalSleepDebt: real)
    requires |performances| > 0
    ensures var a := EnhancedAnalysis(performances, totalSleepDebt).value;
      && a.minPerformance <= a.averagePerformance <= a.maxPerformance
      && a.sleepDebtImpact == 0.56 * totalSleepDebt
  {
    MeanBetweenMinMax(performances);
  }

  /** part / whole * 100, as the analysis computes its shares. */
  function PercentOf(part: nat, whole: nat): real
    requires whole > 0
  {
    part as real / whole as real * 100.0
  }

  /** A share of at most the whole is a percentage in [0, 100], and it is
      the part scaled to a whole of 100. */
  lemma Percentage(part: nat, whole: nat)
    requires part <= whole && whole > 0
    ensures PercentOf(part, whole) * whole as real == part as real * 100.0
    ensures 0.0 <= PercentOf(part, whole) <= 100.0
  {
    var p, w := part as real, whole as real;
    var q := p / w;
    assert q * w == p;
    if q < 0.0 {
      calc { p; == q * w; < 0.0 * w; }
    }
    if q > 1.0 {
      calc { p; == q * w; > 1.0 * w; }
    }
    calc { (q * 100.0) * w; == (q * w) * 100.0; == p * 100.0; }
  }

  // ---------------------------------------------------------------------------
  // The daily summary sheet
  // ---------------------------------------------------------------------------

  datatype DayRow = DayRow(day: int, averagePerformance: real, minPerformance: real, maxPerformance: real,
                           optimalHours: nat, poorCriticalHours: nat, riskScore: real)

  /** The cumulative risk of every hour. */
  function RiskScores(s: seq<real>): (r: seq<real>)
    ensures |r| == |s|
    ensures forall i :: 0 <= i < |s| ==> r[i] >= 0.0
  {
    seq(|s|, i requires 0 <= i < |s| => CumulativeRisk(s[i]))
  }

  /** The row the summary writes for one day of hourly scores. */
  function DaySummary(day: int, dayPerformances: seq<real>): DayRow
    requires |dayPerformances| > 0
  {
    DayRow(day, Mean(dayPerformances), Min(dayPerformances), Max(dayPerformances),
           CountIf(dayPerformances, IsOptimal), CountIf(dayPerformances, IsBelowModerate),
           Sum(RiskScores(dayPerformances)) / |dayPerformances| as real)
  }

  /** A day row never counts more optimal and poor-or-critical hours than the
      day has, keeps its average between its extremes, and has a risk score
      of at least 0, which is 0 exactly when every hour is optimal. */
  lemma DaySummaryIsConsistent(day: int, dayPerformances: seq<real>)
    requires |dayPerformances| > 0
    ensures var r := DaySummary(day, dayPerformances);
      && r.optimalHours + r.poorCriticalHours <= |dayPerformances|
      && r.minPerformance <= r.averagePerformance <= r.maxPerformance
      && r.riskScore >= 0.0
      && (r.riskScore == 0.0 <==> forall i :: 0 <= i < |dayPerformances| ==> IsOptimal(dayPerformances[i]))
  {
    CountIfUnion(dayPerformances, IsOptimal, IsBelowModerate, x => IsOptimal(x) || IsBelowModerate(x));
    MeanBetweenMinMax(dayPerformances);
    DayRiskScore(dayPerformances);
  }

  /** The mean cumulative risk of a day is at least 0, and 0 exactly when
      every hour is optimal. */
  lemma DayRiskScore(dayPerformances: seq<real>)
    requires |dayPerformances| > 0
    ensures Sum(RiskScores(dayPerformances)) / |dayPerformances| as real >= 0.0
    ensures Sum(RiskScores(dayPerformances)) / |dayPerformances| as real == 0.0 <==>
      forall i :: 0 <= i < |dayPerformances| ==> IsOptimal(dayPerformances[i])
  {
    var risks := RiskScores(dayPerformances);
    SumNonNegative(risks);
    var n := |dayPerformances| as real;
    assert Sum(risks) / n == 0.0 <==> Sum(risks) == 0.0;
    assert forall i :: 0 <= i < |dayPerformances| ==> (risks[i] == 0.0 <==> IsOptimal(dayPerformances[i]));
  }

  /** The daily summary loop: one row per whole day, the trailing partial day
      dropped. */
  method DailySummary(performances: seq<real>) returns (rows: seq<DayRow>)
    ensures |rows| == |performances| / 24
    ensures 24 * |rows| <= |performances| < 24 * |rows| + 24
    ensures forall d :: 0 <= d < |rows| ==> rows[d] == DaySummary(d + 1, performances[24 * d .. 24 * d + 24])
  {
    rows := [];
    var day := 0;
    var days := |performances| / 24;
    assert 24 * days <= |performances| < 24 * days + 24;
    while day < days
      invariant 0 <= day <= days && |rows| == day
      invariant forall d :: 0 <= d < day ==> rows[d] == DaySummary(d + 1, performances[24 * d .. 24 * d + 24])
    {
      var dayStart := 24 * day;
      var dayEnd := dayStart + 24;
      var dayPerformances := performances[dayStart .. dayEnd];
      rows := rows + [DaySummary(day + 1, dayPerformances)];
      day := day + 1;
    }
  }
}
