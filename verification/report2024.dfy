/** The zone counts of enhanced_analysis and the per-hour labels of
    export_enhanced_data in scripts/FatigueCalcEnhanced2024.py. */
module EnhancedReport2024 {
  import opened Common
  import opened PerformanceZones

  datatype RiskLabel = HighRisk | MediumRisk | LowRisk

  /** The "Risk_Level" column: High below 50, Medium below 60, Low otherwise.
      It lumps the two upper categories together. */
  function RiskLabelOf(score: real): (r: RiskLabel)
    ensures r == HighRisk <==> CategorizePerformance(score) == Critical
    ensures r == MediumRisk <==> CategorizePerformance(score) == Poor
    ensures r == LowRisk <==> CategorizePerformance(score) in {Optimal, Moderate}
  {
    if score < 50.0 then HighRisk else if score < 60.0 then MediumRisk else LowRisk
  }

  /** The reference score the hourly sheet measures deviations from. */
  const Baseline: real := 77.5

  datatype HourlyRecord = HourlyRecord(performance: real, category: Category, deviationFromBaseline: real,
                                       risk: RiskLabel)

  /** The score-derived columns of the hourly sheet. */
  function HourlyTable(performances: seq<real>): (rows: seq<HourlyRecord>)
    ensures |rows| == |performances|
    ensures forall i :: 0 <= i < |rows| ==>
      && rows[i].performance == performances[i]
      && rows[i].deviationFromBaseline + Baseline == performances[i]
      && rows[i].category == CategorizePerformance(performances[i])
      && rows[i].risk == RiskLabelOf(performances[i])
      && (rows[i].risk == LowRisk <==> rows[i].category in {Optimal, Moderate})
      && (rows[i].risk == HighRisk <==> rows[i].category == Critical)
  {
    seq(|performances|, i requires 0 <= i < |performances| =>
      var p := performances[i];
      HourlyRecord(p, CategorizePerformance(p), p - Baseline, RiskLabelOf(p)))
  }

  datatype Analysis = Analysis(averagePerformance: real, minPerformance: real, maxPerformance: real,
                               optimalHours: nat, moderateHours: nat, poorHours: nat, criticalHours: nat)

  /** With no hours `np.min` raises. */
  datatype AnalysisError = NoHours

  /** The statistics and zone counts of enhanced_analysis; "poor" is every
      hour below 60 and "critical" every hour below 50. */
  function EnhancedAnalysis(performances: seq<real>): Result<Analysis, AnalysisError>
  {
    if |performances| == 0 then Err(NoHours)
    else
      Ok(Analysis(Mean(performances), Min(performances), Max(performances),
                  CountIf(performances, IsOptimal), CountIf(performances, IsModerate),
                  CountIf(performances, IsBelowModerate), CountIf(performances, IsCritical)))
  }

  /** The analysis fails exactly on an empty run. Otherwise optimal, moderate
      and poor hours partition the run, the critical hours are among the poor
      ones, and the average lies between the extremes. */
  lemma AnalysisIsConsistent(performances: seq<real>)
    ensures EnhancedAnalysis(performances).Err? <==> |performances| == 0
    ensures EnhancedAnalysis(performances).Ok? ==>
      var a := EnhancedAnalysis(performances).value;
      && a.optimalHours + a.moderateHours + a.poorHours == |performances|
      && a.criticalHours <= a.poorHours
      && a.minPerformance <= a.averagePerformance <= a.maxPerformance
  {
    if |performances| > 0 {
      ThreeZonesPartition(performances);
      MeanBetweenMinMax(performances);
    }
  }

  /** The hours labelled High risk are exactly the critical hours the
      analysis counts. */
  lemma HighRiskHoursAreCritical(performances: seq<real>)
    ensures CountIf(performances, p => RiskLabelOf(p) == HighRisk) == CountIf(performances, IsCritical)
  {
    CountIfSame(performances, p => RiskLabelOf(p) == HighRisk, IsCritical);
  }
}
